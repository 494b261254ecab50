/**
 * The browser state the front end reads and writes: `window.localStorage`,
 * the cookies seen through js-cookie, and `window.location.href`.
 */
module Web {

  import opened Wrappers

  /** Local-storage key of the API token. */
  const TokenKey := "auth_token"
  /** Local-storage key of the serialised signed-in user. */
  const UserKey := "stackoverflow_user"
  /** Name of the cookie that mirrors the token for the route guard. */
  const TokenCookie := "auth_token"

  /** A cookie's value with the `path` attribute it was set with. */
  datatype Cookie = Cookie(value: string, path: string)

  class Browser {
    var storage: map<string, string>
    var cookies: map<string, Cookie>
    var href: string

    constructor (storage: map<string, string>, cookies: map<string, Cookie>, href: string)
      ensures this.storage == storage && this.cookies == cookies && this.href == href
    {
      this.storage := storage;
      this.cookies := cookies;
      this.href := href;
    }

    /** `localStorage.getItem(key)`. */
    function GetItem(key: string): (v: Option<string>)
      reads this
      ensures v.Some? <==> key in storage
      ensures v.Some? ==> v.value == storage[key]
    {
      if key in storage then Some(storage[key]) else None
    }

    /** `localStorage.setItem(key, value)`. */
    method SetItem(key: string, value: string)
      modifies this`storage
      ensures storage == old(storage)[key := value]
    {
      storage := storage[key := value];
    }

    /** `localStorage.removeItem(key)`: absent keys are ignored. */
    method RemoveItem(key: string)
      modifies this`storage
      ensures storage == old(storage) - {key}
    {
      storage := storage - {key};
    }

    /** `Cookies.set(name, value, { path })`. */
    method SetCookie(name: string, value: string, path: string)
      modifies this`cookies
      ensures cookies == old(cookies)[name := Cookie(value, path)]
    {
      cookies := cookies[name := Cookie(value, path)];
    }

    /** `Cookies.remove(name, { path })`: only a cookie set with the same path goes. */
    method RemoveCookie(name: string, path: string)
      modifies this`cookies
      ensures cookies == WithoutCookie(old(cookies), name, path)
    {
      cookies := WithoutCookie(cookies, name, path);
    }
  }

  /** The cookie jar after removing cookie `name` for `path`. */
  function WithoutCookie(cookies: map<string, Cookie>, name: string, path: string): (r: map<string, Cookie>)
    ensures name in cookies && cookies[name].path == path ==> name !in r
    ensures !(name in cookies && cookies[name].path == path) ==> r == cookies
    ensures forall n :: n != name ==> (n in r <==> n in cookies)
    ensures forall n :: n in r ==> n in cookies && r[n] == cookies[n]
  {
    if name in cookies && cookies[name].path == path then cookies - {name} else cookies
  }
}
