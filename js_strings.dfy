/** The JavaScript string primitives the admin flow relies on: a value that may
    be null, the truthiness test `if (s)`, `String.prototype.trim`,
    `s.split(',')` and `xs.join(',')`. */
module JsStrings {

  /** A value that may be null or undefined (`FormData.get` returns null for a
      missing field, an optional property is undefined). */
  datatype Option<T> = None | Some(value: T) {
    function GetOr(default: T): T {
      match this
      case Some(v) => v
      case None => default
    }
  }

  /** `if (s)` on a string-or-null: false for null and for the empty string. */
  predicate Truthy(s: Option<string>) {
    s.Some? && s.value != ""
  }

  /** `s || ''` on a string-or-null. */
  function OrEmpty(s: Option<string>): (r: string)
    ensures Truthy(s) ==> r == s.value
    ensures !Truthy(s) ==> r == ""
  {
    if s.Some? then s.value else ""
  }

  // ---------------------------------------------------------------------------
  // trim

  /** The characters `trim` removes: ECMAScript WhiteSpace (tab, vertical tab,
      form feed, space, no-break space, byte-order mark, the Zs category) and
      LineTerminator (LF, CR, line and paragraph separator). */
  predicate IsWhitespace(c: char) {
    || c == ' '
    || ('\t' <= c <= '\r')  // tab, line feed, vertical tab, form feed, carriage return
    || ('\U{00A0}' <= c
        && (|| c == '\U{00A0}' || c == '\U{1680}'
            || ('\U{2000}' <= c <= '\U{200A}')
            || c == '\U{2028}' || c == '\U{2029}' || c == '\U{202F}' || c == '\U{205F}'
            || c == '\U{3000}' || c == '\U{FEFF}'))
  }

  /** Neither end of `s` is whitespace. */
  predicate IsTrimmed(s: string) {
    s == [] || (!IsWhitespace(s[0]) && !IsWhitespace(s[|s| - 1]))
  }

  predicate AllWhitespace(s: string) {
    forall k :: 0 <= k < |s| ==> IsWhitespace(s[k])
  }

  /** Drops the longest whitespace prefix. */
  function TrimStart(s: string): (r: string)
    ensures |r| <= |s| && r == s[|s| - |r|..]
    ensures r == [] || !IsWhitespace(r[0])
    ensures AllWhitespace(s[..|s| - |r|])
  {
    if |s| > 0 && IsWhitespace(s[0]) then
      var r := TrimStart(s[1..]);
      assert s[..|s| - |r|] == [s[0]] + s[1..][..|s| - 1 - |r|];
      r
    else s
  }

  /** Drops the longest whitespace suffix. */
  function TrimEnd(s: string): (r: string)
    ensures |r| <= |s| && r == s[..|r|]
    ensures r == [] || !IsWhitespace(r[|r| - 1])
    ensures AllWhitespace(s[|r|..])
  {
    if |s| > 0 && IsWhitespace(s[|s| - 1]) then
      var r := TrimEnd(s[..|s| - 1]);
      assert s[|r|..] == s[..|s| - 1][|r|..] + [s[|s| - 1]];
      r
    else s
  }

  /** `r` is `s[i..j]` and everything outside it is whitespace. */
  predicate StripsEnds(s: string, r: string, i: int, j: int) {
    && 0 <= i <= j <= |s| && r == s[i..j]
    && AllWhitespace(s[..i]) && AllWhitespace(s[j..])
  }

  /** Cutting a whitespace prefix off `s`, leaving `a`, and then a whitespace
      suffix off `a`, leaving `t`, leaves a trimmed middle slice of `s`, and
      leaves `s` itself when it was already trimmed. */
  lemma PrefixThenSuffix(s: string, a: string, t: string)
    requires |a| <= |s| && a == s[|s| - |a|..] && AllWhitespace(s[..|s| - |a|])
    requires a == [] || !IsWhitespace(a[0])
    requires |t| <= |a| && t == a[..|t|] && AllWhitespace(a[|t|..])
    requires t == [] || !IsWhitespace(t[|t| - 1])
    ensures StripsEnds(s, t, |s| - |a|, |s| - |a| + |t|)
    ensures IsTrimmed(t)
    ensures IsTrimmed(s) ==> t == s
  {
    var i := |s| - |a|;
    assert t == s[i..i + |t|];
    assert s[i + |t|..] == a[|t|..];
    if t != [] {
      assert t[0] == a[0];
    }
  }

  /** `s.trim()`: the longest whitespace prefix and suffix removed. The result
      is the middle of `s` with only whitespace around it, has no whitespace
      at either end, and a trimmed string is its own trim. */
  function Trim(s: string): (r: string)
    ensures IsTrimmed(r)
    ensures |r| <= |s|
    ensures forall c :: c in r ==> c in s
    ensures IsTrimmed(s) ==> r == s
    ensures exists i, j :: StripsEnds(s, r, i, j)
  {
    var a := TrimStart(s);
    var t := TrimEnd(a);
    PrefixThenSuffix(s, a, t);
    t
  }

  lemma TrimIdempotent(s: string)
    ensures Trim(Trim(s)) == Trim(s)
  {
  }

  /** A string is trimmed exactly when `trim` leaves it unchanged. */
  lemma TrimFixedPoint(s: string)
    ensures Trim(s) == s <==> IsTrimmed(s)
  {
  }

  // ---------------------------------------------------------------------------
  // join(',') and split(',')

  /** `xs.join(',')`: the empty array joins to the empty string, and the
      labels are written as they are, with no escaping. */
  function Join(xs: seq<string>): (r: string)
    ensures xs == [] ==> r == ""
  {
    if xs == [] then "" else if |xs| == 1 then xs[0] else xs[0] + "," + Join(xs[1..])
  }

  predicate CommaFree(s: string) {
    ',' !in s
  }

  /** `s.split(',')`: the comma-free pieces of `s`, one per comma-separated
      segment, empty segments kept, which joined back with commas give `s`.
      (These three facts determine the pieces; see SplitJoin.) */
  function Split(s: string): (r: seq<string>)
    ensures |r| >= 1
    ensures forall i :: 0 <= i < |r| ==> CommaFree(r[i])
    ensures Join(r) == s
    decreases |s|
  {
    if s == [] then [""]
    else
      var rest := Split(s[1..]);
      if s[0] == ',' then
        assert Join([""] + rest) == "" + "," + Join(rest);
        [""] + rest
      else
        var r := [[s[0]] + rest[0]] + rest[1..];
        assert s == [s[0]] + s[1..];
        if |rest| == 1 then r
        else
          assert Join(rest) == rest[0] + "," + Join(rest[1..]);
          assert Join(r) == ([s[0]] + rest[0]) + "," + Join(rest[1..]) by {
            assert r[1..] == rest[1..];
          }
          r
  }

  /** A character other than a comma joins the first piece. */
  lemma SplitCons(c: char, t: string)
    requires c != ','
    ensures Split([c] + t) == [[c] + Split(t)[0]] + Split(t)[1..]
  {
    assert ([c] + t)[1..] == t;
  }

  /** Splitting a comma-free prefix glued to `s` extends the first piece. */
  lemma {:induction false} SplitPrefix(x: string, s: string)
    requires CommaFree(x)
    ensures Split(x + s) == [x + Split(s)[0]] + Split(s)[1..]
    decreases |x|
  {
    if x == [] {
      assert x + s == s;
      assert x + Split(s)[0] == Split(s)[0];
      assert Split(s) == [Split(s)[0]] + Split(s)[1..];
    } else {
      SplitPrefix(x[1..], s);
      assert x[0] in x;
      PrefixStep(x[0], x[1..], s, Split(s));
      assert [x[0]] + x[1..] == x;
    }
  }

  /** One more comma-free character in front of the prefix. */
  lemma PrefixStep(c: char, y: string, s: string, p: seq<string>)
    requires c != ',' && p == Split(s)
    requires Split(y + s) == [y + p[0]] + p[1..]
    ensures Split([c] + y + s) == [[c] + y + p[0]] + p[1..]
  {
    assert [c] + y + s == [c] + (y + s);
    SplitCons(c, y + s);
    assert Split([c] + (y + s)) == [[c] + Split(y + s)[0]] + Split(y + s)[1..];
    assert [c] + (y + p[0]) == [c] + y + p[0];
  }

  /** Split undoes Join on comma-free pieces: the round trip the comma-joined
      hidden form fields depend on. */
  lemma {:induction false} SplitJoin(xs: seq<string>)
    requires |xs| >= 1
    requires forall i :: 0 <= i < |xs| ==> CommaFree(xs[i])
    ensures Split(Join(xs)) == xs
  {
    if |xs| == 1 {
      SplitPrefix(xs[0], "");
      assert xs[0] + "" == xs[0];
    } else {
      SplitJoin(xs[1..]);
      var tail := "," + Join(xs[1..]);
      SplitPrefix(xs[0], tail);
      assert tail[0] == ',' && tail[1..] == Join(xs[1..]);
      assert Split(tail) == [""] + xs[1..];
      assert xs[0] + tail == Join(xs);
      assert xs[0] + "" == xs[0];
    }
  }

  /** Split is the only way to cut `s` into comma-free pieces. */
  lemma SplitUnique(s: string, pieces: seq<string>)
    requires |pieces| >= 1
    requires forall i :: 0 <= i < |pieces| ==> CommaFree(pieces[i])
    requires Join(pieces) == s
    ensures pieces == Split(s)
  {
    SplitJoin(pieces);
  }

  /** `.map(s => s.trim())`. */
  function TrimAll(xs: seq<string>): (r: seq<string>)
    ensures |r| == |xs|
    ensures forall i :: 0 <= i < |xs| ==> r[i] == Trim(xs[i])
  {
    if xs == [] then [] else [Trim(xs[0])] + TrimAll(xs[1..])
  }
}
