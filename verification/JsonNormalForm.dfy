/** Values in normal form come back exactly, and the text of a value determines its normal form. */
module JsonNormalForm {
  import opened Bytes
  import opened Json
  import opened JsonRoundTrip

  predicate DistinctKeys(members: seq<Member>) {
    forall i, j :: 0 <= i < j < |members| ==> members[i].key != members[j].key
  }

  /** Keys are unique, and an unsigned integer is used only where a signed one does not reach. */
  predicate Canonical(v: Value)
    decreases v
  {
    match v
    case UInt(u) => u > INT64_MAX
    case Array(items) => forall i :: 0 <= i < |items| ==> Canonical(items[i])
    case Object(members) => DistinctKeys(members) && forall i :: 0 <= i < |members| ==> Canonical(members[i].value)
    case _ => true
  }

  lemma {:induction false} CanonicalIsNormal(v: Value)
    requires Canonical(v)
    ensures Norm(v) == v
    decreases v
  {
    match v
    case Array(items) => CanonicalItems(items);
    case Object(members) =>
      forall i | 0 <= i < |members| ensures Norm(members[i].value) == members[i].value { CanonicalIsNormal(members[i].value); }
      NormObject(members);
    case _ =>
  }

  lemma {:induction false} CanonicalItems(items: seq<Value>)
    requires forall i :: 0 <= i < |items| ==> Canonical(items[i])
    ensures NormItems(items) == items
    decreases items
  {
    if items != [] {
      CanonicalIsNormal(items[0]);
      CanonicalItems(items[1..]);
      assert items == [items[0]] + items[1..];
    }
  }

  /** Members with unique keys are normalised one by one. */
  lemma {:induction false} DistinctMembers(acc: seq<Member>, members: seq<Member>)
    requires DistinctKeys(acc + members)
    ensures var r := NormMembers(acc, members);
            |r| == |acc| + |members| && r[..|acc|] == acc &&
            forall i :: 0 <= i < |members| ==> r[|acc| + i] == Member(members[i].key, Norm(members[i].value))
    decreases |members|
  {
    hide Norm;
    if members != [] {
      var m := members[0];
      assert forall j :: 0 <= j < |acc| ==> (acc + members)[j] == acc[j] && (acc + members)[|acc|] == m;
      assert Find(acc, m.key) == -1;
      var next := acc + [Member(m.key, Norm(m.value))];
      assert forall j :: 0 <= j < |acc + members| ==> (next + members[1..])[j].key == (acc + members)[j].key;
      DistinctMembers(next, members[1..]);
      var r := NormMembers(acc, members);
      assert r[..|acc|] == r[..|next|][..|acc|];
      assert r[|acc|] == r[..|next|][|acc|];
      forall i | 0 < i < |members| ensures r[|acc| + i] == Member(members[i].key, Norm(members[i].value)) {
        assert r[|next| + (i - 1)] == Member(members[1..][i - 1].key, Norm(members[1..][i - 1].value));
      }
    }
  }

  function NormEach(members: seq<Member>): (r: seq<Member>)
    ensures |r| == |members| && forall i :: 0 <= i < |r| ==> r[i] == Member(members[i].key, Norm(members[i].value))
  {
    seq(|members|, i requires 0 <= i < |members| => Member(members[i].key, Norm(members[i].value)))
  }

  lemma NormObject(members: seq<Member>)
    requires DistinctKeys(members)
    ensures Norm(Object(members)) == Object(NormEach(members))
  {
    hide NormEach, NormMembers;
    assert [] + members == members;
    DistinctMembers([], members);
    var r := NormMembers([], members);
    assert forall i :: 0 <= i < |members| ==> r[0 + i] == Member(members[i].key, Norm(members[i].value));
    assert r == NormEach(members);
  }

  /** A value in normal form comes back as it was. */
  lemma RoundTripExact(v: Value, lim: Limits, indent: nat)
    requires Representable(v) && Canonical(v) && Fits(v, lim, 0, 0) && |Dump(v, indent, 0)| <= lim.maxInput
    ensures Parse(Dump(v, indent, 0), lim) == Got(v, |Dump(v, indent, 0)|)
  {
    hide Dump, Parse, Fits, Representable, Canonical;
    RoundTrip(v, lim, indent);
    CanonicalIsNormal(v);
  }

  // ---- the text determines the value --------------------------------------------------------------------------

  /** A bound on the nesting, the strings and the nodes of a value. */
  function Size(v: Value): (n: nat)
    decreases v
  {
    match v
    case Str(s) => 1 + |s|
    case Array(items) => 1 + SizeOfItems(items)
    case Object(members) => 1 + SizeOfMembers(members)
    case _ => 1
  }

  function SizeOfItems(items: seq<Value>): nat
    decreases items
  {
    if items == [] then 0 else Size(items[0]) + SizeOfItems(items[1..])
  }

  function SizeOfMembers(members: seq<Member>): nat
    decreases members
  {
    if members == [] then 0 else |members[0].key| + Size(members[0].value) + SizeOfMembers(members[1..])
  }

  lemma {:induction false} ShortStringFits(s: Text, n: nat, max: nat)
    requires n + |s| <= max
    ensures StringFits(s, n, max)
    decreases |s|
  {
    if s != [] { ShortStringFits(s[1..], n + 1, max); }
  }

  /** Every value is within some reader's bounds. */
  lemma {:induction false} SizeSuffices(v: Value, lim: Limits, depth: nat)
    requires depth + Size(v) <= lim.maxDepth && Size(v) <= lim.maxString
    ensures ShapeFits(v, lim, depth) && Nodes(v) <= Size(v)
    decreases v
  {
    match v
    case Str(s) => ShortStringFits(s, 0, lim.maxString);
    case Array(items) => ItemsSuffice(items, lim, depth);
    case Object(members) => MembersSuffice(members, lim, depth);
    case _ =>
  }

  lemma {:induction false} ItemsSuffice(items: seq<Value>, lim: Limits, depth: nat)
    requires depth + 1 + SizeOfItems(items) <= lim.maxDepth && SizeOfItems(items) <= lim.maxString
    ensures ItemsFit(items, lim, depth) && NodesOfItems(items) <= SizeOfItems(items)
    decreases items
  {
    if items != [] {
      SizeSuffices(items[0], lim, depth + 1);
      ItemsSuffice(items[1..], lim, depth);
    }
  }

  lemma {:induction false} MembersSuffice(members: seq<Member>, lim: Limits, depth: nat)
    requires depth + 1 + SizeOfMembers(members) <= lim.maxDepth && SizeOfMembers(members) <= lim.maxString
    ensures MembersFit(members, lim, depth) && NodesOfMembers(members) <= SizeOfMembers(members)
    decreases members
  {
    if members != [] {
      ShortStringFits(members[0].key, 0, lim.maxString);
      SizeSuffices(members[0].value, lim, depth + 1);
      MembersSuffice(members[1..], lim, depth);
    }
  }

  /** Values with the same text, compact or not, have the same normal form: in normal form, they are the same value. */
  lemma DumpIsInjective(v: Value, w: Value, indent: nat)
    requires Representable(v) && Representable(w) && Dump(v, indent, 0) == Dump(w, indent, 0)
    ensures Norm(v) == Norm(w)
    ensures Canonical(v) && Canonical(w) ==> v == w
  {
    hide Dump, Parse, ShapeFits, Representable, Canonical, Norm, Size, Nodes;
    var room := Size(v) + Size(w);
    var lim := Limits(room, room, room, |Dump(v, indent, 0)|, t => false);
    SizeSuffices(v, lim, 0);
    SizeSuffices(w, lim, 0);
    RoundTrip(v, lim, indent);
    RoundTrip(w, lim, indent);
    if Canonical(v) && Canonical(w) {
      CanonicalIsNormal(v);
      CanonicalIsNormal(w);
    }
  }
}
