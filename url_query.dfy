/**
 * The parts of Go's net/url that the web search tool relies on, in query
 * component mode: `url.QueryEscape`, `url.QueryUnescape`, and
 * `URL.Query().Get(key)`, which splits a raw query at `&`, cuts each pair at
 * the first `=` and unescapes both halves.
 */
module UrlQuery {
  import opened Bytes
  import opened Wrappers

  const Percent: Byte := 37
  const Amp: Byte := 38
  const Semicolon: Byte := 59
  const Equals: Byte := 61

  /** The bytes `QueryEscape` leaves alone: letters, digits, `-`, `_`, `.`, `~`. */
  predicate IsUnreserved(b: Byte) {
    (65 <= b <= 90) || (97 <= b <= 122) || (48 <= b <= 57) || b == 45 || b == 95 || b == 46 || b == 126
  }

  predicate IsHex(b: Byte) {
    (48 <= b <= 57) || (65 <= b <= 70) || (97 <= b <= 102)
  }

  /** `unhex`: the value of a hex digit, either case. */
  function Unhex(b: Byte): (n: int)
    requires IsHex(b)
    ensures 0 <= n < 16
  {
    if b <= 57 then (b - 48) as int else if b <= 70 then (b - 55) as int else (b - 87) as int
  }

  /** The upper-case hex digit `QueryEscape` writes for `n`. */
  function HexDigit(n: int): (b: Byte)
    requires 0 <= n < 16
    ensures IsHex(b) && Unhex(b) == n
  {
    if n < 10 then (48 + n) as Byte else (55 + n) as Byte
  }

  /** How `QueryEscape` writes one byte: kept, `+` for a space, or `%XX`. */
  function EscapeByte(b: Byte): (r: Text)
    ensures forall i :: 0 <= i < |r| ==> r[i] != Amp && r[i] != Semicolon && r[i] != Equals
  {
    if IsUnreserved(b) then [b]
    else if b == Space then [Plus]
    else [Percent, HexDigit(b as int / 16), HexDigit(b as int % 16)]
  }

  /** `url.QueryEscape`. Its output never holds a pair or key/value separator. */
  function Escape(t: Text): (r: Text)
    ensures forall i :: 0 <= i < |r| ==> r[i] != Amp && r[i] != Semicolon && r[i] != Equals
  {
    if t == [] then [] else EscapeByte(t[0]) + Escape(t[1..])
  }

  function Cons(b: Byte, o: Option<Text>): (r: Option<Text>)
    ensures r.Some? <==> o.Some?
    ensures r.Some? ==> r.value == [b] + o.value
  {
    if o.Some? then Some([b] + o.value) else None
  }

  /**
   * `url.QueryUnescape`: `%XX` becomes the byte it names and `+` a space; a `%`
   * not followed by two hex digits is an error (`None`).
   */
  function Unescape(s: Text): (r: Option<Text>)
    ensures r.Some? ==> |r.value| <= |s|
    decreases |s|
  {
    if s == [] then Some([])
    else if s[0] == Percent then
      if |s| < 3 || !IsHex(s[1]) || !IsHex(s[2]) then None
      else Cons((16 * Unhex(s[1]) + Unhex(s[2])) as Byte, Unescape(s[3..]))
    else if s[0] == Plus then Cons(Space, Unescape(s[1..]))
    else Cons(s[0], Unescape(s[1..]))
  }

  /** A `%` at position `i` that is not followed by two hex digits. */
  predicate BadEscapeAt(s: Text, i: int) {
    0 <= i < |s| && s[i] == Percent && (i + 2 >= |s| || !IsHex(s[i + 1]) || !IsHex(s[i + 2]))
  }

  /** `QueryUnescape` fails exactly when some `%` lacks two hex digits after it. */
  lemma {:induction false} UnescapeFails(s: Text)
    ensures Unescape(s).None? <==> exists i :: BadEscapeAt(s, i)
    decreases |s|
  {
    if s != [] && !(s[0] == Percent && (|s| < 3 || !IsHex(s[1]) || !IsHex(s[2]))) {
      var k := if s[0] == Percent then 3 else 1;
      var tail := s[k..];
      UnescapeFails(tail);
      assert Unescape(s).None? <==> Unescape(tail).None?;
      if i :| BadEscapeAt(s, i) {
        assert i >= k;
        assert BadEscapeAt(tail, i - k);
      }
      if j :| BadEscapeAt(tail, j) {
        assert BadEscapeAt(s, j + k);
      }
    } else if s != [] {
      assert BadEscapeAt(s, 0);
    }
  }

  lemma UnescapeEscapeByte(b: Byte, rest: Text)
    ensures Unescape(EscapeByte(b) + rest) == Cons(b, Unescape(rest))
  {
    var s := EscapeByte(b) + rest;
    if IsUnreserved(b) {
      assert s[1..] == rest;
    } else if b == Space {
      assert s[1..] == rest;
    } else {
      assert s[3..] == rest;
      assert 16 * (b as int / 16) + b as int % 16 == b as int;
    }
  }

  /** Round trip: unescaping what `QueryEscape` wrote gives back the text. */
  lemma {:induction false} UnescapeEscape(t: Text)
    ensures Unescape(Escape(t)) == Some(t)
    decreases |t|
  {
    if t != [] {
      UnescapeEscapeByte(t[0], Escape(t[1..]));
      UnescapeEscape(t[1..]);
      assert [t[0]] + t[1..] == t;
    }
  }

  /** Position of the first `b` in `s`, or `|s|`. */
  function Find(s: Text, b: Byte): (i: nat)
    ensures i <= |s|
    ensures forall k :: 0 <= k < i ==> s[k] != b
    ensures i < |s| ==> s[i] == b
  {
    if s == [] then 0 else if s[0] == b then 0 else 1 + Find(s[1..], b)
  }

  /**
   * One `&`-separated segment as `ParseQuery` reads it: dropped when empty, when
   * it holds a `;`, or when its key or value does not unescape.
   */
  function Pair(seg: Text): (r: Option<(Text, Text)>)
    ensures seg == [] || Semicolon in seg ==> r.None?
  {
    if seg == [] || Find(seg, Semicolon) < |seg| then None
    else
      var j := Find(seg, Equals);
      var key := Unescape(seg[..j]);
      var value := Unescape(if j < |seg| then seg[j + 1..] else []);
      if key.None? || value.None? then None else Some((key.value, value.value))
  }

  /**
   * A segment cut at its first `=`: the key and the value are the two halves
   * unescaped, and the segment is dropped when either half does not unescape.
   */
  lemma PairCut(k: Text, v: Text)
    requires Equals !in k && Semicolon !in k && Semicolon !in v
    ensures var key, value := Unescape(k), Unescape(v);
      Pair(k + [Equals] + v) == if key.Some? && value.Some? then Some((key.value, value.value)) else None
  {
    var seg := k + [Equals] + v;
    forall i | 0 <= i < |seg| ensures seg[i] != Semicolon {
      if i < |k| { assert seg[i] == k[i]; } else if i > |k| { assert seg[i] == v[i - |k| - 1]; }
    }
    FindAt(seg, Semicolon, |seg|);
    forall i | 0 <= i < |k| ensures seg[i] != Equals {
      assert seg[i] == k[i];
    }
    FindAt(seg, Equals, |k|);
    assert seg[..|k|] == k;
    assert seg[|k| + 1..] == v;
  }

  /** `Query().Get(key)`: the first value stored under `key`, or `""`. */
  function Get(query: Text, key: Text): (r: Text)
    ensures query == [] ==> r == []
    decreases |query|
  {
    if query == [] then []
    else
      var i := Find(query, Amp);
      var rest := if i < |query| then query[i + 1..] else [];
      var pair := Pair(query[..i]);
      if pair.Some? && pair.value.0 == key then pair.value.1 else Get(rest, key)
  }

  /** `Find` stops at the first `b`, or at the end when there is none. */
  lemma FindAt(s: Text, b: Byte, n: nat)
    requires n <= |s| && (n < |s| ==> s[n] == b)
    requires forall k :: 0 <= k < n ==> s[k] != b
    ensures Find(s, b) == n
  {
  }

  /** A segment `key=` + escaped value, with a plain key, reads as that key and value. */
  lemma PairEscaped(key: Text, value: Text)
    requires forall k :: 0 <= k < |key| ==> IsUnreserved(key[k])
    ensures Pair(key + [Equals] + Escape(value)) == Some((key, value))
  {
    var ev := Escape(value);
    var seg := key + [Equals] + ev;
    forall k | 0 <= k < |seg| ensures seg[k] != Semicolon {
      if k > |key| { assert seg[k] == ev[k - |key| - 1]; } else if k < |key| { assert seg[k] == key[k]; }
    }
    FindAt(seg, Semicolon, |seg|);
    forall k | 0 <= k < |key| ensures seg[k] != Equals {
      assert seg[k] == key[k];
    }
    FindAt(seg, Equals, |key|);
    assert seg[..|key|] == key;
    assert seg[|key| + 1..] == ev;
    UnescapePlain(key);
    UnescapeEscape(value);
  }

  /**
   * A query that starts with `key=` followed by an escaped value (and then
   * nothing, or `&` and more pairs) yields that value, decoded once.
   */
  lemma GetFirst(key: Text, value: Text, rest: Text)
    requires key != [] && forall k :: 0 <= k < |key| ==> IsUnreserved(key[k])
    requires rest == [] || rest[0] == Amp
    ensures Get(key + [Equals] + Escape(value) + rest, key) == value
  {
    var ev := Escape(value);
    var seg := key + [Equals] + ev;
    var q := seg + rest;
    forall k | 0 <= k < |seg| ensures q[k] != Amp {
      if k > |key| { assert q[k] == ev[k - |key| - 1]; } else if k < |key| { assert q[k] == key[k]; }
    }
    FindAt(q, Amp, |seg|);
    assert q[..|seg|] == seg;
    PairEscaped(key, value);
  }

  /**
   * `Get` reads the query one `&`-separated segment at a time: the first
   * segment that reads as a pair with the wanted key decides, and any other
   * segment is skipped.
   */
  lemma GetSegment(seg: Text, rest: Text, key: Text)
    requires Amp !in seg
    ensures var p := Pair(seg);
      Get(seg + [Amp] + rest, key) == if p.Some? && p.value.0 == key then p.value.1 else Get(rest, key)
    ensures var p := Pair(seg);
      Get(seg, key) == if p.Some? && p.value.0 == key then p.value.1 else []
  {
    var q := seg + [Amp] + rest;
    forall i | 0 <= i < |seg| ensures q[i] != Amp {
      assert q[i] == seg[i];
    }
    FindAt(q, Amp, |seg|);
    assert q[..|seg|] == seg;
    assert q[|seg| + 1..] == rest;
    if seg != [] {
      FindAt(seg, Amp, |seg|);
      assert seg[..|seg|] == seg;
    }
  }

  /** Text with no `%` and no `+` unescapes to itself. */
  lemma {:induction false} UnescapePlain(t: Text)
    requires forall k :: 0 <= k < |t| ==> t[k] != Percent && t[k] != Plus
    ensures Unescape(t) == Some(t)
    decreases |t|
  {
    if t != [] {
      UnescapePlain(t[1..]);
      assert [t[0]] + t[1..] == t;
    }
  }
}
