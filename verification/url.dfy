/** The parts of Go's net/url the adapter relies on: query escaping (url.QueryEscape,
    url.Values.Encode), query reading (url.ParseQuery, Values.Get) and the split of a
    request target into path and raw query. */
module Url {
  import opened Wrappers
  import opened Bytes

  // ---------------------------------------------------------------------------
  // Escaping

  predicate IsAlnum(b: byte) {
    48 <= b <= 57 || 65 <= b <= 90 || 97 <= b <= 122
  }

  /** Bytes QueryEscape leaves as they are. */
  predicate Unreserved(b: byte) {
    IsAlnum(b) || b == 45 || b == 46 || b == 95 || b == 126
  }

  /** Bytes that can appear in QueryEscape's output. */
  predicate EscapedByte(b: byte) {
    Unreserved(b) || b == PERCENT || b == PLUS
  }

  predicate IsHex(b: byte) {
    48 <= b <= 57 || 65 <= b <= 70 || 97 <= b <= 102
  }

  function HexDigit(n: int): (b: byte)
    requires 0 <= n < 16
  {
    if n < 10 then (48 + n) as byte else (55 + n) as byte
  }

  function HexValue(b: byte): (n: int)
    requires IsHex(b)
  {
    if b <= 57 then b as int - 48 else if b <= 70 then b as int - 55 else b as int - 87
  }

  function EscapeByte(b: byte): (r: Bytes)
    ensures forall i | 0 <= i < |r| :: EscapedByte(r[i])
  {
    if Unreserved(b) then [b]
    else if b == SPACE then [PLUS]
    else [PERCENT, HexDigit(b as int / 16), HexDigit(b as int % 16)]
  }

  /** Go's url.QueryEscape: unreserved bytes stay, space becomes '+', all else is %XX. */
  function Escape(s: Bytes): (r: Bytes)
    ensures forall i | 0 <= i < |r| :: EscapedByte(r[i])
  {
    if |s| == 0 then [] else EscapeByte(s[0]) + Escape(s[1..])
  }

  /** Go's url.QueryUnescape: '+' is a space, %XX a byte; a broken escape is an error. */
  function Unescape(s: Bytes): Option<Bytes>
    decreases |s|
  {
    if |s| == 0 then Some([])
    else if s[0] == PERCENT then
      if |s| >= 3 && IsHex(s[1]) && IsHex(s[2]) then
        match Unescape(s[3..])
        case Some(rest) => Some([(HexValue(s[1]) * 16 + HexValue(s[2])) as byte] + rest)
        case None => None
      else None
    else
      match Unescape(s[1..])
      case Some(rest) => Some([if s[0] == PLUS then SPACE else s[0]] + rest)
      case None => None
  }

  lemma UnescapeByte(b: byte, rest: Bytes)
    ensures Unescape(EscapeByte(b) + rest) ==
      match Unescape(rest) case Some(r) => Some([b] + r) case None => None
  {
    var e := EscapeByte(b) + rest;
    if Unreserved(b) {
      assert e[1..] == rest;
    } else if b == SPACE {
      assert e[1..] == rest;
    } else {
      assert e[3..] == rest;
      assert HexValue(HexDigit(b as int / 16)) * 16 + HexValue(HexDigit(b as int % 16)) == b as int;
    }
  }

  /** Unescaping undoes escaping, for every byte string. */
  lemma {:induction false} UnescapeEscape(s: Bytes)
    ensures Unescape(Escape(s)) == Some(s)
    decreases |s|
  {
    if |s| > 0 {
      UnescapeEscape(s[1..]);
      UnescapeByte(s[0], Escape(s[1..]));
      assert [s[0]] + s[1..] == s;
    }
  }

  lemma EscapeFree(s: Bytes, c: byte)
    requires !EscapedByte(c)
    ensures Free(Escape(s), c)
  {
  }

  // ---------------------------------------------------------------------------
  // Splitting

  /** Index of the first `c` in `s`, or |s| when there is none. */
  function IndexOf(s: Bytes, c: byte): (k: nat)
    ensures k <= |s|
    ensures forall i | 0 <= i < k :: s[i] != c
    ensures k < |s| ==> s[k] == c
  {
    if |s| == 0 then 0 else if s[0] == c then 0 else 1 + IndexOf(s[1..], c)
  }

  lemma IndexOfFree(s: Bytes, c: byte)
    requires Free(s, c)
    ensures IndexOf(s, c) == |s|
  {
  }

  lemma IndexOfAfter(a: Bytes, c: byte, rest: Bytes)
    requires Free(a, c)
    ensures IndexOf(a + [c] + rest, c) == |a|
  {
    var s := a + [c] + rest;
    var k := IndexOf(s, c);
    assert s[|a|] == c;
  }

  /** Go's strings.Split on a single byte. */
  function Split(s: Bytes, c: byte): (parts: seq<Bytes>)
    ensures |parts| > 0
    decreases |s|
  {
    var k := IndexOf(s, c);
    if k == |s| then [s] else [s[..k]] + Split(s[k + 1..], c)
  }

  lemma SplitFree(s: Bytes, c: byte)
    requires Free(s, c)
    ensures Split(s, c) == [s]
  {
    IndexOfFree(s, c);
  }

  lemma SplitCons(a: Bytes, c: byte, rest: Bytes)
    requires Free(a, c)
    ensures Split(a + [c] + rest, c) == [a] + Split(rest, c)
  {
    var s := a + [c] + rest;
    IndexOfAfter(a, c, rest);
    assert s[..|a|] == a;
    assert s[|a| + 1..] == rest;
  }

  // ---------------------------------------------------------------------------
  // Query strings

  /** One query parameter: a key and its value. */
  type Param = (Bytes, Bytes)

  function EncodePair(p: Param): Bytes {
    Escape(p.0) + [EQUALS] + Escape(p.1)
  }

  /** Go's url.Values.Encode for single-valued parameters, written in the order given
      (Encode sorts by key; callers list their keys in ascending order). */
  function Encode(ps: seq<Param>): Bytes {
    if |ps| == 0 then []
    else if |ps| == 1 then EncodePair(ps[0])
    else EncodePair(ps[0]) + [AMP] + Encode(ps[1..])
  }

  /** Reading one `&`-separated field of a query, as url.ParseQuery does: empty fields are
      skipped, a field holding ';' is rejected, and a field whose key or value does not
      unescape is dropped. */
  function ReadField(f: Bytes): seq<Param> {
    if |f| == 0 then []
    else if !Free(f, SEMICOLON) then []
    else
      var k := IndexOf(f, EQUALS);
      var key := f[..k];
      var value := if k < |f| then f[k + 1..] else [];
      match (Unescape(key), Unescape(value))
      case (Some(kk), Some(vv)) => [(kk, vv)]
      case _ => []
  }

  function ReadFields(fs: seq<Bytes>): seq<Param> {
    if |fs| == 0 then [] else ReadField(fs[0]) + ReadFields(fs[1..])
  }

  /** Go's url.ParseQuery, keeping the parameters in the order they appear. */
  function ParseQuery(q: Bytes): seq<Param> {
    ReadFields(Split(q, AMP))
  }

  /** Go's Values.Get: the first value given for `key`, or the empty string. */
  function Get(ps: seq<Param>, key: Bytes): Bytes {
    if |ps| == 0 then [] else if ps[0].0 == key then ps[0].1 else Get(ps[1..], key)
  }

  lemma ReadPair(p: Param)
    ensures ReadField(EncodePair(p)) == [p]
  {
    var f := EncodePair(p);
    var ek := Escape(p.0);
    var ev := Escape(p.1);
    EscapeFree(p.0, EQUALS);
    EscapeFree(p.0, SEMICOLON);
    EscapeFree(p.1, SEMICOLON);
    FreeAppend(ek, [EQUALS], SEMICOLON);
    FreeAppend(ek + [EQUALS], ev, SEMICOLON);
    assert f == ek + [EQUALS] + ev;
    IndexOfAfter(ek, EQUALS, ev);
    assert f[..|ek|] == ek;
    assert f[|ek| + 1..] == ev;
    UnescapeEscape(p.0);
    UnescapeEscape(p.1);
  }

  lemma EncodePairFree(p: Param)
    ensures Free(EncodePair(p), AMP)
  {
    EscapeFree(p.0, AMP);
    EscapeFree(p.1, AMP);
    FreeAppend(Escape(p.0), [EQUALS], AMP);
    FreeAppend(Escape(p.0) + [EQUALS], Escape(p.1), AMP);
  }

  /** Reading an encoded query gives back exactly the parameters encoded, in order. */
  lemma {:induction false} ParseEncode(ps: seq<Param>)
    ensures ParseQuery(Encode(ps)) == ps
    decreases |ps|
  {
    if |ps| == 0 {
      var fs: seq<Bytes> := [[]];
      assert Split([], AMP) == fs;
      assert fs[1..] == [];
      assert ReadFields(fs) == ReadField(fs[0]) + ReadFields([]);
    } else if |ps| == 1 {
      EncodePairFree(ps[0]);
      SplitFree(EncodePair(ps[0]), AMP);
      ReadPair(ps[0]);
      var fs := [EncodePair(ps[0])];
      assert fs[1..] == [];
      assert ReadFields(fs) == ReadField(fs[0]) + ReadFields([]);
      assert ps == [ps[0]];
    } else {
      EncodePairFree(ps[0]);
      SplitCons(EncodePair(ps[0]), AMP, Encode(ps[1..]));
      ReadPair(ps[0]);
      var fs := [EncodePair(ps[0])] + Split(Encode(ps[1..]), AMP);
      assert fs[1..] == Split(Encode(ps[1..]), AMP);
      ParseEncode(ps[1..]);
      assert [ps[0]] + ps[1..] == ps;
    }
  }

  lemma EncodeFree(ps: seq<Param>, c: byte)
    requires !EscapedByte(c) && c != EQUALS && c != AMP
    ensures Free(Encode(ps), c)
    decreases |ps|
  {
    if |ps| > 0 {
      EscapeFree(ps[0].0, c);
      EscapeFree(ps[0].1, c);
      FreeAppend(Escape(ps[0].0), [EQUALS], c);
      FreeAppend(Escape(ps[0].0) + [EQUALS], Escape(ps[0].1), c);
      if |ps| > 1 {
        EncodeFree(ps[1..], c);
        FreeAppend(EncodePair(ps[0]), [AMP], c);
        FreeAppend(EncodePair(ps[0]) + [AMP], Encode(ps[1..]), c);
      }
    }
  }

  /** Encode leaves a string of unreserved bytes unchanged. */
  lemma EscapePlain(s: Bytes)
    requires forall i | 0 <= i < |s| :: Unreserved(s[i])
    ensures Escape(s) == s
  {
    if |s| > 0 {
      EscapePlain(s[1..]);
      assert [s[0]] + s[1..] == s;
    }
  }

  // ---------------------------------------------------------------------------
  // Request targets

  /** The target without its `#fragment` (a fragment is never sent). */
  function WithoutFragment(u: Bytes): Bytes {
    u[..IndexOf(u, HASH)]
  }

  /** The path the server sees: everything before the first '?'. */
  function PathPart(u: Bytes): Bytes {
    var v := WithoutFragment(u);
    v[..IndexOf(v, QUESTION)]
  }

  /** The raw query the server sees: everything after the first '?', or nothing. */
  function QueryPart(u: Bytes): Bytes {
    var v := WithoutFragment(u);
    var k := IndexOf(v, QUESTION);
    if k == |v| then [] else v[k + 1..]
  }

  predicate HasQuery(u: Bytes) {
    var v := WithoutFragment(u);
    IndexOf(v, QUESTION) < |v|
  }

  /** A path without '?' or '#' is read back whole, with an empty query. */
  lemma TargetPlain(path: Bytes)
    requires Free(path, QUESTION) && Free(path, HASH)
    ensures PathPart(path) == path && QueryPart(path) == [] && !HasQuery(path)
  {
    IndexOfFree(path, HASH);
    IndexOfFree(path, QUESTION);
  }

  lemma {:induction false} IndexOfShift(a: Bytes, b: Bytes, c: byte)
    requires Free(a, c)
    ensures IndexOf(a + b, c) == |a| + IndexOf(b, c)
    decreases |a|
  {
    if |a| > 0 {
      assert (a + b)[1..] == a[1..] + b;
      IndexOfShift(a[1..], b, c);
    } else {
      assert a + b == b;
    }
  }

  /** A path followed by '?' and any text: the server reads the path whole, and the query
      is the text up to its first '#'. */
  lemma TargetThenText(path: Bytes, text: Bytes)
    requires Free(path, QUESTION) && Free(path, HASH)
    ensures PathPart(path + [QUESTION] + text) == path
    ensures QueryPart(path + [QUESTION] + text) == WithoutFragment(text)
    ensures HasQuery(path + [QUESTION] + text)
  {
    var u := path + [QUESTION] + text;
    FreeAppend(path, [QUESTION], HASH);
    assert u == (path + [QUESTION]) + text;
    IndexOfShift(path + [QUESTION], text, HASH);
    var v := WithoutFragment(u);
    var w := WithoutFragment(text);
    assert v == path + [QUESTION] + w;
    IndexOfAfter(path, QUESTION, w);
    assert v[..|path|] == path;
    assert v[|path| + 1..] == w;
  }

  /** A path followed by '?' and a query splits back into that path and query. */
  lemma TargetWithQuery(path: Bytes, query: Bytes)
    requires Free(path, QUESTION) && Free(path, HASH) && Free(query, HASH)
    ensures PathPart(path + [QUESTION] + query) == path
    ensures QueryPart(path + [QUESTION] + query) == query
    ensures HasQuery(path + [QUESTION] + query)
  {
    var u := path + [QUESTION] + query;
    FreeAppend(path, [QUESTION], HASH);
    FreeAppend(path + [QUESTION], query, HASH);
    IndexOfFree(u, HASH);
    assert WithoutFragment(u) == u;
    IndexOfAfter(path, QUESTION, query);
    assert u[..|path|] == path;
    assert u[|path| + 1..] == query;
  }
}
