/**
  Text primitives shared by the serialisers and their decoders.

  The library builds XML by appending literal fragments and caller-supplied
  attribute values, without escaping. The decoders here read such text back;
  they can only succeed when an attribute value contains no double quote,
  which `AttrSafe` names.
 */
module XmlText {
  import opened Wrappers

  /** True when `p` is a prefix of `s`. */
  predicate StartsWith(s: string, p: string) {
    |p| <= |s| && s[..|p|] == p
  }

  /** An attribute value that can be written between double quotes and read back. */
  predicate AttrSafe(v: string) {
    '"' !in v
  }

  /** `s` without its prefix `p`, or None when `s` does not start with `p`. */
  function Strip(s: string, p: string): (r: Option<string>)
    ensures r.Some? <==> StartsWith(s, p)
    ensures r.Some? ==> s == p + r.value
  {
    if StartsWith(s, p) then Some(s[|p|..]) else None
  }

  lemma StripConcat(p: string, t: string)
    ensures Strip(p + t, p) == Some(t)
  {
    assert (p + t)[..|p|] == p;
    assert (p + t)[|p|..] == t;
  }

  /**
    Splits `s` at its first double quote into the attribute value before it
    and the text after it; None when `s` holds no double quote.
   */
  function ReadAttr(s: string): (r: Option<(string, string)>)
    ensures r.Some? ==> AttrSafe(r.value.0) && s == r.value.0 + "\"" + r.value.1
    ensures r.None? <==> AttrSafe(s)
    decreases |s|
  {
    if |s| == 0 then None
    else if s[0] == '"' then
      assert s == "" + "\"" + s[1..];
      Some(("", s[1..]))
    else
      match ReadAttr(s[1..])
      case None => None
      case Some((v, rest)) =>
        assert s == [s[0]] + s[1..];
        Some(([s[0]] + v, rest))
  }

  /** Reading an attribute back returns exactly the value that was written. */
  lemma {:induction false} ReadAttrRoundTrip(v: string, t: string)
    requires AttrSafe(v)
    ensures ReadAttr(v + "\"" + t) == Some((v, t))
    decreases |v|
  {
    var s := v + "\"" + t;
    if |v| == 0 {
      assert s == "\"" + t;
      assert s[1..] == t;
    } else {
      assert v[0] != '"';
      assert s[1..] == v[1..] + "\"" + t;
      ReadAttrRoundTrip(v[1..], t);
      assert [v[0]] + v[1..] == v;
    }
  }

  // ---------------------------------------------------------------------------
  // Texts written one after the other
  // ---------------------------------------------------------------------------

  /** The text of each element of `xs`, in order. */
  function Texts<T>(xs: seq<T>, f: T -> string): (r: seq<string>)
    ensures |r| == |xs|
    ensures forall i :: 0 <= i < |xs| ==> r[i] == f(xs[i])
  {
    seq(|xs|, i requires 0 <= i < |xs| => f(xs[i]))
  }

  lemma TextsJoin<T>(xs: seq<T>, ys: seq<T>, f: T -> string)
    ensures Texts(xs + ys, f) == Texts(xs, f) + Texts(ys, f)
  {
  }

  lemma TextsTail<T>(xs: seq<T>, f: T -> string)
    requires |xs| > 0
    ensures Texts(xs, f)[1..] == Texts(xs[1..], f)
  {
  }

  /** The texts of `parts` one after the other. */
  function Concat(parts: seq<string>): string
    decreases |parts|
  {
    if |parts| == 0 then "" else Concat(parts[..|parts| - 1]) + parts[|parts| - 1]
  }

  lemma ConcatAppend(parts: seq<string>, x: string)
    ensures Concat(parts + [x]) == Concat(parts) + x
  {
    assert (parts + [x])[..|parts|] == parts;
  }

  /** Concatenation distributes over joining the lists of parts. */
  lemma {:induction false} ConcatJoin(a: seq<string>, b: seq<string>)
    ensures Concat(a + b) == Concat(a) + Concat(b)
    decreases |b|
  {
    if |b| == 0 {
      assert a + b == a;
    } else {
      var b', last := b[..|b| - 1], b[|b| - 1];
      assert b == b' + [last];
      assert a + b == (a + b') + [last];
      ConcatAppend(a + b', last);
      ConcatJoin(a, b');
      ConcatAppend(b', last);
    }
  }

  /** The first part comes first. */
  lemma ConcatCons(parts: seq<string>)
    requires |parts| > 0
    ensures Concat(parts) == parts[0] + Concat(parts[1..])
  {
    var x, rest := parts[0], parts[1..];
    assert parts == [x] + rest;
    ConcatJoin([x], rest);
    assert Concat([x]) == x by {
      assert [x][..0] == [];
    }
  }
}
