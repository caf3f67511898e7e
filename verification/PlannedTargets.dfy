/** Which targets a plan is for, and in which order. */
module PlannedTargets {
  import opened Bytes
  import opened TextOrder
  import opened Records
  import opened Staging
  import opened Planner

  /** The inventory's entry for a name is the first of that name. */
  ghost predicate Listed(inventory: seq<Candidate>, d: Candidate) {
    exists i :: 0 <= i < |inventory| && inventory[i] == d && forall j :: 0 <= j < i ==> inventory[j].id != d.id
  }

  lemma {:induction false} FoundIsListed(inventory: seq<Candidate>, t: TargetId)
    ensures forall d :: Listed(inventory, d) && d.id == t <==> Find(inventory, t) >= 0 && d == inventory[Find(inventory, t)]
    decreases |inventory|
  {
    FoundFirst(inventory, t);
  }

  lemma {:induction false} FoundFirst(inventory: seq<Candidate>, t: TargetId)
    ensures forall j :: 0 <= j < |inventory| && (Find(inventory, t) < 0 || j < Find(inventory, t)) ==> inventory[j].id != t
    decreases |inventory|
  {
    if inventory != [] {
      FoundFirst(inventory[1..], t);
      assert inventory == [inventory[0]] + inventory[1..];
    }
  }

  lemma {:induction false} ComponentCount(inventory: seq<Candidate>, component: Text, d: Candidate)
    ensures multiset(OfComponent(inventory, component))[d] == if d.component == component then multiset(inventory)[d] else 0
    decreases |inventory|
  {
    if inventory != [] {
      var front, last := inventory[..|inventory| - 1], inventory[|inventory| - 1];
      ComponentCount(front, component, d);
      assert inventory == front + [last];
    }
  }

  lemma {:induction false} AskedCount(inventory: seq<Candidate>, asked: seq<TargetId>, d: Candidate)
    ensures multiset(Known(inventory, asked))[d] == if Listed(inventory, d) then multiset(asked)[d.id] else 0
    decreases |asked|
  {
    hide Listed;
    if asked != [] {
      var front, last := asked[..|asked| - 1], asked[|asked| - 1];
      AskedCount(inventory, front, d);
      FoundIsListed(inventory, last);
      assert asked == front + [last];
    }
  }

  /** Selected is every target of the component, as often as the inventory holds it; or, when targets are asked for by name, the
      inventory's entry for each name, as often as it is asked for. They are in the order of their names. */
  lemma SelectedExactly(request: Request, inventory: seq<Candidate>, d: Candidate)
    ensures multiset(Selected(request, inventory))[d] ==
            if request.targets == [] then if d.component == request.component then multiset(inventory)[d] else 0
            else if Listed(inventory, d) then multiset(request.targets)[d.id] else 0
    ensures var selected := Selected(request, inventory);
            forall i, j :: 0 <= i < j < |selected| ==> !TextLess(selected[j].id, selected[i].id)
  {
    hide Listed, TextLess, OfComponent, Known, SortBy;
    SortOrders(Name, Resolved(request, inventory));
    if request.targets == [] {
      ComponentCount(inventory, request.component, d);
    } else {
      AskedCount(inventory, request.targets, d);
    }
  }
}
