/**
 * The browser the front-end runs in: the current location and localStorage, and the
 * header-value normalization fetch applies before sending (leading and trailing HTTP
 * whitespace is removed, as the Fetch standard's "normalize" step says).
 */
module Browser {
  import opened Wrappers

  /** The localStorage key the front-end keeps the access token under. */
  const TokenKey: string := "token"

  class Window {
    var pathname: string
    var storage: map<string, string>

    constructor (pathname: string, storage: map<string, string>)
      ensures this.pathname == pathname && this.storage == storage
    {
      this.pathname := pathname;
      this.storage := storage;
    }

    /** localStorage.getItem: null (None) for a missing key. */
    function GetItem(key: string): Option<string>
      reads this
    {
      if key in storage then Some(storage[key]) else None
    }

    method SetItem(key: string, value: string)
      modifies this`storage
      ensures storage == old(storage)[key := value]
    {
      storage := storage[key := value];
    }

    method RemoveItem(key: string)
      modifies this`storage
      ensures storage == old(storage) - {key}
    {
      storage := storage - {key};
    }

    /** Assigning window.location.href, or router.push: the page moves to path. */
    method Navigate(path: string)
      modifies this`pathname
      ensures pathname == path
    {
      pathname := path;
    }
  }

  /** HTTP whitespace: tab, line feed, carriage return and space. */
  predicate IsHttpWhitespace(c: char) { c == '\t' || c == '\n' || c == '\r' || c == ' ' }

  predicate NoHttpWhitespace(s: string) { forall i | 0 <= i < |s| :: !IsHttpWhitespace(s[i]) }

  /**
   * Visible ASCII (0x21 to 0x7E) only: a header value made of these passes the Headers
   * object's byte-string check and reaches the server as the same characters.
   */
  predicate IsVisibleAscii(s: string) { forall i | 0 <= i < |s| :: '!' <= s[i] <= '~' }

  function StripLeading(s: string): (r: string)
    ensures |r| <= |s| && r == s[|s| - |r|..]
  {
    if s != [] && IsHttpWhitespace(s[0]) then StripLeading(s[1..]) else s
  }

  function StripTrailing(s: string): (r: string)
    ensures |r| <= |s| && r == s[..|r|]
    ensures forall i | |r| <= i < |s| :: IsHttpWhitespace(s[i])
  {
    if s != [] && IsHttpWhitespace(s[|s| - 1]) then StripTrailing(s[..|s| - 1]) else s
  }

  /** The value fetch sends for a header set to s. */
  function NormalizeHeaderValue(s: string): string
  {
    StripTrailing(StripLeading(s))
  }

  /** A value that starts and ends with a non-whitespace character is sent unchanged. */
  lemma NormalizeKeeps(s: string)
    requires s != [] && !IsHttpWhitespace(s[0]) && !IsHttpWhitespace(s[|s| - 1])
    ensures NormalizeHeaderValue(s) == s
  {
  }

  /** Trailing whitespace is dropped: "Bearer " is sent as "Bearer". */
  lemma {:induction false} NormalizeDropsTrailingSpace(s: string)
    requires s != [] && !IsHttpWhitespace(s[0]) && !IsHttpWhitespace(s[|s| - 1])
    ensures NormalizeHeaderValue(s + " ") == s
  {
    assert (s + " ")[0] == s[0];
    assert StripLeading(s + " ") == s + " ";
    assert (s + " ")[..|s|] == s;
    assert StripTrailing(s) == s;
  }
}
