/**
 * `getCSRFToken` of the server-rendered pages (static/js/main.js): the value
 * of the `csrftoken` cookie, read from the `document.cookie` string.
 */
module MainJs {
  import opened StringUtil
  import opened Wrappers

  const CsrfCookieName: string := "csrftoken"

  /** `name` in `const [name, value] = cookie.trim().split('=')`. */
  function PairName(cookie: string): string {
    Split(Trim(cookie), '=')[0]
  }

  /**
   * `value` in the same destructuring: the text between the first and the
   * second `=`, or `None` (JavaScript's `undefined`) when there is no `=`.
   */
  function PairValue(cookie: string): Option<string> {
    var parts := Split(Trim(cookie), '=');
    if |parts| > 1 then Some(parts[1]) else None
  }

  /** The loop's answer over the remaining pairs: the first pair named `csrftoken` wins, otherwise "". */
  function TokenAmong(pairs: seq<string>): Option<string>
  {
    if pairs == [] then Some("")
    else if PairName(pairs[0]) == CsrfCookieName then PairValue(pairs[0])
    else TokenAmong(pairs[1..])
  }

  /** What `getCSRFToken` returns for the cookie string `cookie`. */
  function CsrfTokenOf(cookie: string): Option<string> {
    TokenAmong(Split(cookie, ';'))
  }

  /** `getCSRFToken`, with `document.cookie` as the parameter. */
  method GetCsrfToken(cookie: string) returns (token: Option<string>)
    ensures token == CsrfTokenOf(cookie)
  {
    var cookies := Split(cookie, ';');
    var i := 0;
    while i < |cookies|
      invariant 0 <= i <= |cookies|
      invariant TokenAmong(cookies[i..]) == TokenAmong(cookies)
    {
      assert cookies[i..][1..] == cookies[i + 1..];
      var parts := Split(Trim(cookies[i]), '=');
      if parts[0] == CsrfCookieName {
        token := if |parts| > 1 then Some(parts[1]) else None;
        return;
      }
      i := i + 1;
    }
    token := Some("");
  }

  /** With no pair named exactly `csrftoken`, the answer is the empty string. */
  lemma {:induction false} NoCsrfPairGivesEmpty(pairs: seq<string>)
    requires forall k :: 0 <= k < |pairs| ==> PairName(pairs[k]) != CsrfCookieName
    ensures TokenAmong(pairs) == Some("")
    decreases |pairs|
  {
    if pairs != [] {
      NoCsrfPairGivesEmpty(pairs[1..]);
    }
  }

  /** The first pair named exactly `csrftoken` decides the answer; later ones are never read. */
  lemma {:induction false} FirstCsrfPairWins(pairs: seq<string>, k: nat)
    requires k < |pairs| && PairName(pairs[k]) == CsrfCookieName
    requires forall j :: 0 <= j < k ==> PairName(pairs[j]) != CsrfCookieName
    ensures TokenAmong(pairs) == PairValue(pairs[k])
    decreases k
  {
    if k > 0 {
      FirstCsrfPairWins(pairs[1..], k - 1);
    }
  }

  /** The first piece of `v + tail`, split at `=`, is `v` when `tail` is empty or starts a new piece. */
  lemma FirstPieceIsValue(v: string, tail: string)
    requires '=' !in v
    requires tail == [] || tail[0] == '='
    ensures Split(v + tail, '=')[0] == v
  {
    if tail == [] {
      assert v + tail == v;
      SplitNoSeparator(v, '=');
    } else {
      assert v + tail == v + ['='] + tail[1..];
      SplitAtFirst(v, '=', tail[1..]);
    }
  }

  /** A `name=rest` pair that starts and ends without white space is left as it is by `trim`. */
  lemma TrimPair(name: string, rest: string)
    requires name != [] && !IsWhitespace(name[0])
    requires rest == [] || !IsWhitespace(rest[|rest| - 1])
    ensures Trim(name + ['='] + rest) == name + ['='] + rest
  {
    var s := name + ['='] + rest;
    assert s[0] == name[0];
    if rest == [] {
      assert s[|s| - 1] == '=';
    } else {
      assert s[|s| - 1] == rest[|rest| - 1];
    }
    TrimNoop(s);
  }

  /** A trimmed pair whose split at `=` starts with `name` has that name, and the next piece as its value. */
  lemma PairParts(p: string, name: string, rest: string)
    requires Trim(p) == p
    requires Split(p, '=') == [name] + Split(rest, '=')
    ensures PairName(p) == name
    ensures PairValue(p) == Some(Split(rest, '=')[0])
  {
  }

  /** A cookie string that is one `name=rest` pair is read as that pair: its name, and the first piece after its `=`. */
  lemma OnePair(name: string, rest: string)
    requires ';' !in name && '=' !in name && name != [] && !IsWhitespace(name[0])
    requires ';' !in rest
    requires rest == [] || !IsWhitespace(rest[|rest| - 1])
    ensures Split(name + ['='] + rest, ';') == [name + ['='] + rest]
    ensures PairName(name + ['='] + rest) == name
    ensures PairValue(name + ['='] + rest) == Some(Split(rest, '=')[0])
  {
    var s := name + ['='] + rest;
    assert forall c :: c in s ==> c in name || c == '=' || c in rest;
    SplitNoSeparator(s, ';');
    TrimPair(name, rest);
    SplitAtFirst(name, '=', rest);
    PairParts(s, name, rest);
  }

  /** The cookie name holds neither separator and does not start with white space. */
  lemma CsrfNameIsPlain()
    ensures ';' !in CsrfCookieName && '=' !in CsrfCookieName
    ensures CsrfCookieName != [] && !IsWhitespace(CsrfCookieName[0])
  {
  }

  /** A cookie string that is a single pair named `csrftoken` yields that pair's value. */
  lemma SingleCsrfPair(c: string)
    requires Split(c, ';') == [c] && PairName(c) == CsrfCookieName
    ensures CsrfTokenOf(c) == PairValue(c)
  {
  }

  /** A cookie string that is one `csrftoken` pair yields the first piece after its `=`. */
  lemma CsrfPairValue(rest: string)
    requires ';' !in rest
    requires rest == [] || !IsWhitespace(rest[|rest| - 1])
    ensures CsrfTokenOf(CsrfCookieName + "=" + rest) == Some(Split(rest, '=')[0])
  {
    var c := CsrfCookieName + "=" + rest;
    assert c == CsrfCookieName + ['='] + rest;
    CsrfNameIsPlain();
    OnePair(CsrfCookieName, rest);
    SingleCsrfPair(c);
  }

  /**
   * A cookie string holding only `csrftoken=<v>` followed by nothing or by a
   * second `=` and more text yields exactly `v`.
   */
  lemma CsrfValueStopsAtSecondEquals(v: string, tail: string)
    requires ';' !in v && ';' !in tail && '=' !in v
    requires tail == [] || tail[0] == '='
    requires v + tail == [] || !IsWhitespace((v + tail)[|v + tail| - 1])
    ensures CsrfTokenOf(CsrfCookieName + "=" + (v + tail)) == Some(v)
  {
    assert ';' !in v + tail;
    CsrfPairValue(v + tail);
    FirstPieceIsValue(v, tail);
  }
}
