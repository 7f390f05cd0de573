/** The formatters' building blocks: text written entry by entry into a strings.Builder,
    and labelled lines, so that which lines a formatter prints can be stated apart from
    how each one is spelled. */
module Lines {
  import opened Wrappers
  import opened Bytes

  /** entry(x0) + entry(x1) + ... : a loop writing one entry per item, in order. */
  function Each<T>(xs: seq<T>, entry: T -> Bytes): Bytes
    decreases |xs|
  {
    if |xs| == 0 then [] else Each(xs[..|xs| - 1], entry) + entry(xs[|xs| - 1])
  }

  /** entry(1, x0) + entry(2, x1) + ... : the same loop numbering its entries from 1. */
  function Numbered<T>(xs: seq<T>, entry: (nat, T) -> Bytes): Bytes
    decreases |xs|
  {
    if |xs| == 0 then [] else Numbered(xs[..|xs| - 1], entry) + entry(|xs|, xs[|xs| - 1])
  }

  /** A strings.Builder loop: `head`, then one entry per item, in order. */
  method WriteEach<T>(head: Bytes, xs: seq<T>, entry: T -> Bytes) returns (text: Bytes)
    ensures text == head + Each(xs, entry)
  {
    text := head;
    for i := 0 to |xs|
      invariant text == head + Each(xs[..i], entry)
    {
      EachStep(head, xs, i, entry);
      text := text + entry(xs[i]);
    }
    assert xs[..|xs|] == xs;
  }

  /** The same loop numbering its entries from 1. */
  method WriteNumbered<T>(head: Bytes, xs: seq<T>, entry: (nat, T) -> Bytes) returns (text: Bytes)
    ensures text == head + Numbered(xs, entry)
  {
    text := head;
    for i := 0 to |xs|
      invariant text == head + Numbered(xs[..i], entry)
    {
      NumberedStep(head, xs, i, entry);
      text := text + entry(i + 1, xs[i]);
    }
    assert xs[..|xs|] == xs;
  }

  /** One more turn of the loop, after `head` was written first. */
  lemma EachStep<T>(head: Bytes, xs: seq<T>, i: nat, entry: T -> Bytes)
    requires i < |xs|
    ensures head + Each(xs[..i + 1], entry) == head + Each(xs[..i], entry) + entry(xs[i])
  {
    assert xs[..i + 1][..i] == xs[..i];
  }

  lemma NumberedStep<T>(head: Bytes, xs: seq<T>, i: nat, entry: (nat, T) -> Bytes)
    requires i < |xs|
    ensures head + Numbered(xs[..i + 1], entry) == head + Numbered(xs[..i], entry) + entry(i + 1, xs[i])
  {
    assert xs[..i + 1][..i] == xs[..i];
  }

  lemma EachSnoc<T>(xs: seq<T>, x: T, entry: T -> Bytes)
    ensures Each(xs + [x], entry) == Each(xs, entry) + entry(x)
  {
    assert (xs + [x])[..|xs|] == xs;
  }

  /** Writing two lists one after the other writes each list's entries, in order. */
  lemma {:induction false} EachAppend<T>(a: seq<T>, b: seq<T>, entry: T -> Bytes)
    ensures Each(a + b, entry) == Each(a, entry) + Each(b, entry)
    decreases |b|
  {
    if |b| == 0 {
      assert a + b == a;
    } else {
      var b' := b[..|b| - 1];
      assert (a + b)[..|a + b| - 1] == a + b';
      EachAppend(a, b', entry);
    }
  }

  /** The same, after `head` was written first. */
  lemma EachAppendAfter<T>(head: Bytes, a: seq<T>, b: seq<T>, entry: T -> Bytes)
    ensures head + Each(a + b, entry) == head + Each(a, entry) + Each(b, entry)
  {
    EachAppend(a, b, entry);
  }

  /** One entry per item: the items' entries, and nothing else, in order. */
  lemma {:induction false} EachSingle<T>(x: T, entry: T -> Bytes)
    ensures Each([x], entry) == entry(x)
  {
    assert [x][..0] == [];
  }

  // ---------------------------------------------------------------------------
  // Labelled lines

  /** One printed line (without its newline), with a kind saying which line it is. */
  datatype Line<L> = Line(kind: L, text: Bytes)

  function Newline<L>(l: Line<L>): Bytes {
    l.text + [NEWLINE]
  }

  /** The lines as printed, each followed by a newline. */
  function Show<L>(lines: seq<Line<L>>): Bytes {
    Each(lines, Newline)
  }

  /** The text of the first line of kind `which`, if any. */
  function Lookup<L(==)>(lines: seq<Line<L>>, which: L): Option<Bytes> {
    if |lines| == 0 then None
    else if lines[0].kind == which then Some(lines[0].text)
    else Lookup(lines[1..], which)
  }

  /** The line printed only when `c` holds. */
  function If<L>(c: bool, which: L, text: Bytes): seq<Line<L>> {
    if c then [Line(which, text)] else []
  }

  lemma {:induction false} LookupAppend<L>(a: seq<Line<L>>, b: seq<Line<L>>, which: L)
    ensures Lookup(a + b, which) == if Lookup(a, which).Some? then Lookup(a, which) else Lookup(b, which)
    decreases |a|
  {
    if |a| == 0 {
      assert a + b == b;
    } else {
      assert (a + b)[1..] == a[1..] + b;
      LookupAppend(a[1..], b, which);
    }
  }

  /** Five groups of lines in a row: a kind is looked up in the first group that has it. */
  lemma LookupFive<L>(a: seq<Line<L>>, b: seq<Line<L>>, c: seq<Line<L>>, d: seq<Line<L>>, e: seq<Line<L>>, which: L)
    ensures Lookup(a + b + c + d + e, which) ==
      if Lookup(a, which).Some? then Lookup(a, which)
      else if Lookup(b, which).Some? then Lookup(b, which)
      else if Lookup(c, which).Some? then Lookup(c, which)
      else if Lookup(d, which).Some? then Lookup(d, which)
      else Lookup(e, which)
  {
    LookupAppend(a + b + c + d, e, which);
    LookupAppend(a + b + c, d, which);
    LookupAppend(a + b, c, which);
    LookupAppend(a, b, which);
  }

  /** Three lines of distinct kinds: each kind finds its own line. */
  lemma LookupThree<L>(x: Line<L>, y: Line<L>, z: Line<L>, which: L)
    requires x.kind != y.kind && x.kind != z.kind && y.kind != z.kind
    ensures Lookup([x, y, z], which) ==
      if which == x.kind then Some(x.text) else if which == y.kind then Some(y.text)
      else if which == z.kind then Some(z.text) else None
  {
    var s := [x, y, z];
    assert s[1..] == [y, z] && s[1..][1..] == [z] && s[1..][1..][1..] == [];
    assert Lookup(s[1..][1..], which) == if which == z.kind then Some(z.text) else None;
    assert Lookup(s[1..], which) == if which == y.kind then Some(y.text) else Lookup(s[1..][1..], which);
  }

  lemma LookupIf<L>(c: bool, l: L, text: Bytes, which: L)
    ensures Lookup(If(c, l, text), which) == if c && l == which then Some(text) else None
  {
    if c { assert If(c, l, text)[1..] == []; }
  }
}
