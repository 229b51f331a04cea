/**
 * The part of the WHATWG URL Standard that `URLSearchParams` uses here: the list
 * of name-value pairs with its `set` operation (section 6.2, "Interface
 * URLSearchParams"), and the application/x-www-form-urlencoded serializer that
 * its stringifier runs (section 5.2): every code point outside ASCII
 * alphanumerics and `*-._` is UTF-8 encoded and percent-encoded, except that a
 * space becomes `+`.
 */
module FormUrlEncoded {
  import opened Text

  /** One entry of a `URLSearchParams` list: (name, value). */
  type Pair = (string, string)

  // ---- the list and URLSearchParams.set ----

  predicate HasName(ps: seq<Pair>, name: string)
  {
    exists k :: 0 <= k < |ps| && ps[k].0 == name
  }

  /** The pairs whose name is not `name`, in order. */
  function Without(ps: seq<Pair>, name: string): (r: seq<Pair>)
    ensures !HasName(r, name)
    ensures !HasName(ps, name) ==> r == ps
  {
    if ps == [] then []
    else if ps[0].0 == name then Without(ps[1..], name)
    else [ps[0]] + Without(ps[1..], name)
  }

  /** Exactly one pair of `ps` is named `name`, and it carries `value`. */
  predicate UniquelyNamed(ps: seq<Pair>, name: string, value: string)
  {
    && (name, value) in ps
    && forall i, j :: 0 <= i < j < |ps| && ps[i].0 == name ==> ps[j].0 != name
  }

  /** Index of the first pair named `name`, or `|ps|` when there is none. */
  function FirstNamed(ps: seq<Pair>, name: string): (i: nat)
    ensures i <= |ps|
    ensures i < |ps| ==> ps[i].0 == name
    ensures forall j :: 0 <= j < i ==> ps[j].0 != name
    ensures i < |ps| <==> HasName(ps, name)
  {
    if ps == [] then 0
    else if ps[0].0 == name then 0
    else 1 + FirstNamed(ps[1..], name)
  }

  /** Dropping the pairs named `name` distributes over concatenation. */
  lemma {:induction false} WithoutConcat(x: seq<Pair>, y: seq<Pair>, name: string)
    ensures Without(x + y, name) == Without(x, name) + Without(y, name)
  {
    if x == [] {
      assert x + y == y;
    } else {
      assert (x + y)[1..] == x[1..] + y;
      WithoutConcat(x[1..], y, name);
    }
  }

  lemma WithoutOne(p: Pair, name: string)
    ensures Without([p], name) == if p.0 == name then [] else [p]
  {
    assert [p][1..] == [];
  }

  /**
   * `set` on a name already present: the first pair with that name takes
   * `value` where it stands, and the later pairs with that name are dropped.
   */
  function ReplaceFirst(ps: seq<Pair>, name: string, value: string): (r: seq<Pair>)
    requires HasName(ps, name)
    ensures UniquelyNamed(r, name, value)
    ensures Without(r, name) == Without(ps, name)
  {
    var i := FirstNamed(ps, name);
    var before := ps[..i];
    var after := Without(ps[i + 1..], name);
    BeforeFirstFree(ps, name);
    SplitAtFirst(ps, name);
    PlacedAlone(before, (name, value), after);
    WithoutSplit(before, (name, value), after, name);
    before + [(name, value)] + after
  }

  /** No pair before the first one named `name` has that name. */
  lemma BeforeFirstFree(ps: seq<Pair>, name: string)
    ensures !HasName(ps[..FirstNamed(ps, name)], name)
  {
    var before := ps[..FirstNamed(ps, name)];
    forall k | 0 <= k < |before| ensures before[k].0 != name {
      assert before[k] == ps[k];
    }
  }

  /** Splitting at the first pair named `name` and dropping that name: what precedes it is kept. */
  lemma SplitAtFirst(ps: seq<Pair>, name: string)
    requires HasName(ps, name)
    ensures var i := FirstNamed(ps, name);
      Without(ps, name) == ps[..i] + Without(ps[i + 1..], name)
  {
    var i := FirstNamed(ps, name);
    var before, p, rest := ps[..i], ps[i], ps[i + 1..];
    BeforeFirstFree(ps, name);
    Around(ps, i);
    WithoutSplit(before, p, rest, name);
  }

  /** A sequence is what precedes index `i`, the element at `i`, and what follows it. */
  lemma Around<T>(s: seq<T>, i: nat)
    requires i < |s|
    ensures s == s[..i] + [s[i]] + s[i + 1..]
  {
  }

  /** Dropping `p`'s name from a run free of it, then `p`, then anything. */
  lemma WithoutSplit(before: seq<Pair>, p: Pair, rest: seq<Pair>, name: string)
    requires p.0 == name && !HasName(before, name)
    ensures Without(before + [p] + rest, name) == before + Without(rest, name)
  {
    WithoutConcat(before + [p], rest, name);
    WithoutConcat(before, [p], name);
    WithoutOne(p, name);
  }

  /** A pair between two runs free of its name is the only pair with that name. */
  lemma PlacedAlone(before: seq<Pair>, p: Pair, after: seq<Pair>)
    requires !HasName(before, p.0) && !HasName(after, p.0)
    ensures UniquelyNamed(before + [p] + after, p.0, p.1)
  {
    var r := before + [p] + after;
    var i := |before|;
    assert r[i] == p;
    forall k | 0 <= k < |r| && k != i ensures r[k].0 != p.0 {
      if k < i {
        assert r[k] == before[k];
      } else {
        assert r[k] == after[k - i - 1];
      }
    }
  }

  /**
   * `URLSearchParams.set(name, value)`: when some pair is named `name`, the
   * first gets `value` in its place and the later ones are removed; otherwise
   * the pair is appended. The pairs with other names are kept, in order.
   */
  function SetParam(ps: seq<Pair>, name: string, value: string): (r: seq<Pair>)
    ensures UniquelyNamed(r, name, value)
    ensures Without(r, name) == Without(ps, name)
    ensures !HasName(ps, name) ==> r == ps + [(name, value)]
    ensures HasName(ps, name) ==> var i := FirstNamed(ps, name);
      i < |ps| && r == ps[..i] + [(name, value)] + Without(ps[i + 1..], name)
  {
    if HasName(ps, name) then ReplaceFirst(ps, name, value)
    else
      var r := ps + [(name, value)];
      WithoutConcat(ps, [(name, value)], name);
      WithoutOne((name, value), name);
      r
  }

  // ---- UTF-8 and percent-encoding ----

  predicate Unreserved(c: char)
  {
    || 'a' <= c <= 'z' || 'A' <= c <= 'Z' || '0' <= c <= '9'
    || c == '*' || c == '-' || c == '.' || c == '_'
  }

  predicate IsByte(b: int)
  {
    0 <= b < 256
  }

  /** UTF-8 encoding of one Unicode scalar value (RFC 3629, section 3). */
  function Utf8(c: char): (bytes: seq<int>)
    ensures 1 <= |bytes| <= 4
    ensures forall k :: 0 <= k < |bytes| ==> IsByte(bytes[k])
  {
    var cp := c as int;
    if cp < 0x80 then [cp]
    else if cp < 0x800 then [0xC0 + cp / 64, 0x80 + cp % 64]
    else if cp < 0x1_0000 then [0xE0 + cp / 4096, 0x80 + (cp / 64) % 64, 0x80 + cp % 64]
    else [0xF0 + cp / 262144, 0x80 + (cp / 4096) % 64, 0x80 + (cp / 64) % 64, 0x80 + cp % 64]
  }

  /** Reads one UTF-8 sequence back: the lead byte fixes the length. */
  function Utf8Decode(bytes: seq<int>): int
    requires 1 <= |bytes| <= 4
  {
    if |bytes| == 1 then bytes[0]
    else if |bytes| == 2 then (bytes[0] - 0xC0) * 64 + (bytes[1] - 0x80)
    else if |bytes| == 3 then (bytes[0] - 0xE0) * 4096 + (bytes[1] - 0x80) * 64 + (bytes[2] - 0x80)
    else (bytes[0] - 0xF0) * 262144 + (bytes[1] - 0x80) * 4096 + (bytes[2] - 0x80) * 64 + (bytes[3] - 0x80)
  }

  /** The lead byte announces the length, continuation bytes are 10xxxxxx, and decoding gives the code point back. */
  lemma Utf8RoundTrip(c: char)
    ensures var b := Utf8(c);
      && (|b| == 1 <==> b[0] < 0x80)
      && (|b| == 2 <==> 0xC0 <= b[0] < 0xE0)
      && (|b| == 3 <==> 0xE0 <= b[0] < 0xF0)
      && (|b| == 4 <==> 0xF0 <= b[0] < 0xF8)
      && (forall k :: 1 <= k < |b| ==> 0x80 <= b[k] < 0xC0)
      && Utf8Decode(b) == c as int
  {
    var cp := c as int;
    if cp < 0x80 {
    } else if cp < 0x800 {
      Split64(cp);
    } else if cp < 0x1_0000 {
      Split64(cp);
      Split64(cp / 64);
      assert cp / 4096 == (cp / 64) / 64;
    } else {
      Split64(cp);
      Split64(cp / 64);
      Split64(cp / 4096);
      assert cp / 4096 == (cp / 64) / 64;
      assert cp / 262144 == (cp / 4096) / 64;
    }
  }

  lemma Split64(n: nat)
    ensures n == (n / 64) * 64 + n % 64 && 0 <= n % 64 < 64
    ensures n / 64 / 64 == n / 4096
  {
  }

  function HexDigit(d: int): (c: char)
    requires 0 <= d < 16
    ensures '0' <= c <= '9' || 'A' <= c <= 'F'
  {
    "0123456789ABCDEF"[d]
  }

  /** `%XX` for each byte, upper-case hexadecimal. */
  function PercentEncode(bytes: seq<int>): (s: string)
    requires forall k :: 0 <= k < |bytes| ==> IsByte(bytes[k])
    ensures |s| == 3 * |bytes|
    ensures forall k :: 0 <= k < |s| ==> s[k] == '%' || '0' <= s[k] <= '9' || 'A' <= s[k] <= 'F'
  {
    if bytes == [] then ""
    else
      assert IsByte(bytes[0]);
      ['%', HexDigit(bytes[0] / 16), HexDigit(bytes[0] % 16)] + PercentEncode(bytes[1..])
  }

  function EncodeChar(c: char): (e: string)
    ensures Unreserved(c) ==> e == [c]
    ensures |e| >= 1 && '&' !in e && '=' !in e
  {
    if Unreserved(c) then [c]
    else if c == ' ' then "+"
    else PercentEncode(Utf8(c))
  }

  /** The form-urlencoded encoding of one name or value. */
  function Encode(s: string): (e: string)
    ensures '&' !in e && '=' !in e
    ensures (forall k :: 0 <= k < |s| ==> Unreserved(s[k])) ==> e == s
  {
    if s == [] then ""
    else
      var e := EncodeChar(s[0]) + Encode(s[1..]);
      assert (forall k :: 0 <= k < |s| ==> Unreserved(s[k])) ==> e == [s[0]] + s[1..];
      e
  }

  // ---- the serializer and its inverse ----

  function PairText(p: Pair): (t: string)
  {
    Encode(p.0) + "=" + Encode(p.1)
  }

  function PairTexts(ps: seq<Pair>): (ts: seq<string>)
    ensures |ts| == |ps|
    ensures forall k :: 0 <= k < |ps| ==> ts[k] == PairText(ps[k])
  {
    if ps == [] then [] else [PairText(ps[0])] + PairTexts(ps[1..])
  }

  predicate Plain(s: string)
  {
    forall k :: 0 <= k < |s| ==> Unreserved(s[k])
  }

  /** A pair made only of unreserved characters is written as it is. */
  lemma PlainPairText(name: string, value: string)
    requires Plain(name) && Plain(value)
    ensures PairText((name, value)) == name + "=" + value
  {
  }

  /** The URLSearchParams stringifier: `name=value` pairs joined by `&`. */
  function Serialize(ps: seq<Pair>): string
  {
    Join(PairTexts(ps), '&')
  }

  /** Two plain pairs serialize as `n1=v1&n2=v2`. */
  lemma SerializeTwoPlain(n1: string, v1: string, n2: string, v2: string)
    requires Plain(n1) && Plain(v1) && Plain(n2) && Plain(v2)
    ensures Serialize([(n1, v1), (n2, v2)]) == n1 + "=" + v1 + "&" + n2 + "=" + v2
  {
    var ts := PairTexts([(n1, v1), (n2, v2)]);
    PlainPairText(n1, v1);
    PlainPairText(n2, v2);
    assert ts[1..] == [n2 + "=" + v2];
    assert Join(ts, '&') == ts[0] + ['&'] + Join(ts[1..], '&');
  }

  /** Each pair with its name and value encoded. */
  function Encoded(ps: seq<Pair>): (r: seq<Pair>)
    ensures |r| == |ps|
    ensures forall k :: 0 <= k < |ps| ==> r[k] == (Encode(ps[k].0), Encode(ps[k].1))
  {
    if ps == [] then [] else [(Encode(ps[0].0), Encode(ps[0].1))] + Encoded(ps[1..])
  }

  /** Splits one `name=value` segment at its first `=`. */
  function ParseSegment(seg: string): Pair
  {
    var i := IndexOf(seg, '=');
    (seg[..i], if i < |seg| then seg[i + 1..] else "")
  }

  function ParseSegments(segs: seq<string>): (ps: seq<Pair>)
    ensures |ps| == |segs|
    ensures forall k :: 0 <= k < |segs| ==> ps[k] == ParseSegment(segs[k])
  {
    if segs == [] then [] else [ParseSegment(segs[0])] + ParseSegments(segs[1..])
  }

  /** Splits a serialized query back into its (still encoded) pairs. */
  function Parse(q: string): seq<Pair>
  {
    if q == "" then [] else ParseSegments(Split(q, '&'))
  }

  /** A serialized list is empty exactly when the list is. */
  lemma SerializeEmpty(ps: seq<Pair>)
    ensures Serialize(ps) == "" <==> ps == []
  {
    if ps != [] {
      var ts := PairTexts(ps);
      assert '=' in ts[0];
      if |ts| > 1 {
        assert Join(ts, '&') == ts[0] + ['&'] + Join(ts[1..], '&');
      }
    }
  }

  /** The serializer is injective up to encoding: parsing its output gives back every encoded pair, in order. */
  lemma ParseSerialize(ps: seq<Pair>)
    ensures Parse(Serialize(ps)) == Encoded(ps)
  {
    SerializeEmpty(ps);
    if ps != [] {
      var ts := PairTexts(ps);
      assert FreeOf(ts, '&');
      SplitJoin(ts, '&');
      forall k | 0 <= k < |ps|
        ensures ParseSegment(ts[k]) == (Encode(ps[k].0), Encode(ps[k].1))
      {
        var n, v := Encode(ps[k].0), Encode(ps[k].1);
        IndexOfAfter(n, '=', v);
        assert ts[k] == n + ['='] + v;
        assert ts[k][..|n|] == n;
        assert ts[k][|n| + 1..] == v;
      }
    }
  }
}
