/** The link widget of `src/lib/links.ts`: named, collapsible groups of links,
    kept in a list whose `order` fields the reordering renumbers. */
module Links {
  import opened Seqs

  type Id = string

  datatype LinkItem = LinkItem(id: Id, title: string, url: string, emoji: string)

  /** `color` is the name of an accent colour variable such as "--xp". */
  datatype LinkGroup = LinkGroup(id: Id, title: string, emoji: string, color: string,
                                 links: seq<LinkItem>, collapsed: bool, order: int)

  /** Every group's `order` is its position in the list. */
  predicate Numbered(groups: seq<LinkGroup>)
  {
    forall i :: 0 <= i < |groups| ==> groups[i].order == i
  }

  /** `getDefaultLinks`: three open groups numbered 0, 1, 2; `newId(k)` stands for the
      k-th call of the id generator, groups taking their id before their links. */
  function DefaultLinks(newId: nat -> Id): (r: seq<LinkGroup>)
    ensures |r| == 3 && Numbered(r)
    ensures forall i :: 0 <= i < |r| ==> !r[i].collapsed
    ensures |r[0].links| == 2 && |r[1].links| == 1 && |r[2].links| == 1
  {
    [ LinkGroup(newId(0), "Produktivität", "⚡", "--xp",
        [ LinkItem(newId(1), "Kalender", "https://calendar.google.com", "📅"),
          LinkItem(newId(2), "Notizen", "https://notion.so", "📝") ], false, 0),
      LinkGroup(newId(3), "Lernen", "📚", "--wissen",
        [ LinkItem(newId(4), "YouTube", "https://youtube.com", "▶️") ], false, 1),
      LinkGroup(newId(5), "Tools", "🛠️", "--streak",
        [ LinkItem(newId(6), "GitHub", "https://github.com", "🐙") ], false, 2) ]
  }

  // ---------------------------------------------------------------------------
  // The list after each operation

  /** `addLinkGroup`: an empty open group appended with `order` the old length. */
  function GroupAdded(groups: seq<LinkGroup>, id: Id, title: string, emoji: string, color: string): seq<LinkGroup>
  {
    groups + [LinkGroup(id, title, emoji, color, [], false, |groups|)]
  }

  /** The list with the first group of id `groupId` (`find`) replaced by `f` of it;
      unchanged when there is none. */
  function UpdateFirst(groups: seq<LinkGroup>, groupId: Id, f: LinkGroup -> LinkGroup): (r: seq<LinkGroup>)
    ensures |r| == |groups|
  {
    match FirstIndex(groups, (g: LinkGroup) => g.id == groupId)
    case None => groups
    case Some(k) => groups[k := f(groups[k])]
  }

  /** `addLinkToGroup`. */
  function LinkAdded(groups: seq<LinkGroup>, groupId: Id, link: LinkItem): seq<LinkGroup>
  {
    UpdateFirst(groups, groupId, (g: LinkGroup) => g.(links := g.links + [link]))
  }

  /** `removeLinkFromGroup`: drops every link of that id from the group. */
  function LinkRemoved(groups: seq<LinkGroup>, groupId: Id, linkId: Id): seq<LinkGroup>
  {
    UpdateFirst(groups, groupId, (g: LinkGroup) => g.(links := Filter(g.links, (l: LinkItem) => l.id != linkId)))
  }

  /** `toggleGroupCollapse`. */
  function CollapseToggled(groups: seq<LinkGroup>, groupId: Id): seq<LinkGroup>
  {
    UpdateFirst(groups, groupId, (g: LinkGroup) => g.(collapsed := !g.collapsed))
  }

  /** `deleteLinkGroup`: the remaining groups keep their `order` values. */
  function GroupDeleted(groups: seq<LinkGroup>, groupId: Id): seq<LinkGroup>
  {
    Filter(groups, (g: LinkGroup) => g.id != groupId)
  }

  /** The position `Array.prototype.splice` starts at for `k` on a list of length `len`:
      negative values count from the end, and the result is clamped to [0, len]. */
  function SpliceStart(k: int, len: nat): (r: nat)
    ensures r <= len
    ensures 0 <= k <= len ==> r == k
  {
    if k < 0 then (if len + k < 0 then 0 else len + k)
    else if k > len then len
    else k
  }

  function Remove<T>(s: seq<T>, i: nat): (r: seq<T>)
    requires i < |s|
    ensures |r| == |s| - 1
  {
    s[..i] + s[i + 1..]
  }

  function Insert<T>(s: seq<T>, i: nat, x: T): (r: seq<T>)
    requires i <= |s|
    ensures |r| == |s| + 1
  {
    s[..i] + [x] + s[i..]
  }

  /** `forEach((g, i) => g.order = i)`. */
  function Renumbered(s: seq<LinkGroup>): (r: seq<LinkGroup>)
    ensures |r| == |s| && Numbered(r)
  {
    seq(|s|, i requires 0 <= i < |s| => s[i].(order := i))
  }

  /** `reorderGroups(fromIndex, toIndex)`: the group at `fromIndex` is taken out and put back
      at `toIndex`, then all groups are renumbered. The source fails for a `fromIndex` past the
      end, where it would insert `undefined`. */
  function Reordered(groups: seq<LinkGroup>, fromIndex: int, toIndex: int): seq<LinkGroup>
    requires 0 < |groups| && fromIndex < |groups|
  {
    var f := SpliceStart(fromIndex, |groups|);
    var rest := Remove(groups, f);
    Renumbered(Insert(rest, SpliceStart(toIndex, |rest|), groups[f]))
  }

  // ---------------------------------------------------------------------------
  // Properties

  /** `addLinkGroup` appends an empty, open group whose `order` is the previous number of
      groups, after the old groups unchanged; a numbered list stays numbered. */
  lemma AddKeepsNumbered(groups: seq<LinkGroup>, id: Id, title: string, emoji: string, color: string)
    ensures var r := GroupAdded(groups, id, title, emoji, color);
      && |r| == |groups| + 1 && r[..|groups|] == groups
      && r[|groups|].id == id && r[|groups|].order == |groups|
      && r[|groups|].links == [] && !r[|groups|].collapsed
      && (Numbered(groups) ==> Numbered(r))
  {
    assert GroupAdded(groups, id, title, emoji, color)[..|groups|] == groups;
  }

  /** `deleteLinkGroup` does not renumber, so a delete followed by an add can give two groups
      the same `order`: removing the first of a numbered list and adding a group leaves the
      last two groups both at `order` |groups| - 1. */
  lemma DeleteThenAddRepeatsOrder(groups: seq<LinkGroup>, id: Id, title: string, emoji: string, color: string)
    requires Numbered(groups) && 2 <= |groups|
    requires forall i :: 1 <= i < |groups| ==> groups[i].id != groups[0].id
    ensures var r := GroupAdded(GroupDeleted(groups, groups[0].id), id, title, emoji, color);
      && |r| == |groups| && !Numbered(r)
      && r[|r| - 2].order == r[|r| - 1].order == |groups| - 1
  {
    var p := (g: LinkGroup) => g.id != groups[0].id;
    assert GroupDeleted(groups, groups[0].id) == groups[1..] by {
      FilterAll(groups[1..], p);
    }
    var r := GroupAdded(groups[1..], id, title, emoji, color);
    assert r[|r| - 2].order != |r| - 2;
  }

  /** Only the first group with the id changes, and only through `f`. */
  lemma UpdateFirstSpec(groups: seq<LinkGroup>, groupId: Id, f: LinkGroup -> LinkGroup)
    ensures var r := UpdateFirst(groups, groupId, f);
      && (forall i :: 0 <= i < |groups| && groups[i].id != groupId ==> r[i] == groups[i])
      && ((forall i :: 0 <= i < |groups| ==> groups[i].id != groupId) ==> r == groups)
      && (forall k :: (0 <= k < |groups| && groups[k].id == groupId
                       && (forall j :: 0 <= j < k ==> groups[j].id != groupId)) ==>
            r == groups[k := f(groups[k])])
  {
    var r := UpdateFirst(groups, groupId, f);
    forall k | 0 <= k < |groups| && groups[k].id == groupId && (forall j :: 0 <= j < k ==> groups[j].id != groupId)
      ensures r == groups[k := f(groups[k])]
    {
      var fi := FirstIndex(groups, (g: LinkGroup) => g.id == groupId);
      assert fi.Some?;
      assert fi.value == k;
    }
  }

  /** Toggling a group twice restores the list. */
  lemma {:induction false} ToggleTwice(groups: seq<LinkGroup>, groupId: Id)
    ensures CollapseToggled(CollapseToggled(groups, groupId), groupId) == groups
  {
    var p := (g: LinkGroup) => g.id == groupId;
    var once := CollapseToggled(groups, groupId);
    match FirstIndex(groups, p)
    case None =>
    case Some(k) =>
      assert forall j :: 0 <= j < |once| ==> p(once[j]) == p(groups[j]);
      assert FirstIndex(once, p) == Some(k) by {
        var fi := FirstIndex(once, p);
        assert fi.Some?;
        assert !(fi.value < k) && !(k < fi.value);
      }
      assert CollapseToggled(once, groupId) == groups;
  }

  /** A link added to a group and then removed by its id leaves the list as it was,
      provided the group had no link with that id. */
  lemma AddThenRemoveLink(groups: seq<LinkGroup>, groupId: Id, link: LinkItem)
    requires forall i, j :: 0 <= i < |groups| && 0 <= j < |groups[i].links| ==> groups[i].links[j].id != link.id
    ensures LinkRemoved(LinkAdded(groups, groupId, link), groupId, link.id) == groups
  {
    var p := (g: LinkGroup) => g.id == groupId;
    var q := (l: LinkItem) => l.id != link.id;
    var added := LinkAdded(groups, groupId, link);
    match FirstIndex(groups, p)
    case None =>
    case Some(k) =>
      assert forall j :: 0 <= j < |added| ==> p(added[j]) == p(groups[j]);
      assert FirstIndex(added, p) == Some(k) by {
        var fi := FirstIndex(added, p);
        assert fi.Some?;
        assert !(fi.value < k) && !(k < fi.value);
      }
      FilterAppend(groups[k].links, [link], q);
      FilterAll(groups[k].links, q);
      assert Filter([link], q) == [];
      assert LinkRemoved(added, groupId, link.id)[k] == groups[k];
      assert LinkRemoved(added, groupId, link.id) == groups;
  }

  /** A deleted group is gone, every other group stays, in the same relative order and
      with its `order` value unchanged. */
  lemma DeleteSpec(groups: seq<LinkGroup>, groupId: Id)
    ensures var r := GroupDeleted(groups, groupId);
      && (forall i :: 0 <= i < |r| ==> r[i].id != groupId && r[i] in groups)
      && (forall i :: 0 <= i < |groups| && groups[i].id != groupId ==> groups[i] in r)
      && IsSubseq(r, groups)
  {
  }

  // Lemmas about the splice steps of `reorderGroups`.

  /** The list with every `order` set to 0: the groups as the user sees them. */
  function Unordered(s: seq<LinkGroup>): (r: seq<LinkGroup>)
    ensures |r| == |s|
  {
    seq(|s|, i requires 0 <= i < |s| => s[i].(order := 0))
  }

  lemma RemoveInsert<T>(a: seq<T>, t: nat, x: T)
    requires t <= |a|
    ensures Remove(Insert(a, t, x), t) == a
  {
    assert Insert(a, t, x)[..t] == a[..t];
    assert Insert(a, t, x)[t + 1..] == a[t..];
  }

  lemma InsertRemove<T>(s: seq<T>, f: nat)
    requires f < |s|
    ensures Insert(Remove(s, f), f, s[f]) == s
  {
    assert Remove(s, f)[..f] == s[..f];
    assert Remove(s, f)[f..] == s[f + 1..];
  }

  lemma InsertRemoveMultiset<T>(s: seq<T>, f: nat, t: nat)
    requires f < |s| && t < |s|
    ensures multiset(Insert(Remove(s, f), t, s[f])) == multiset(s)
  {
    var a, b := s[..f], s[f + 1..];
    assert s == a + [s[f]] + b;
    var rest := Remove(s, f);
    assert rest == a + b;
    var c, d := rest[..t], rest[t..];
    assert rest == c + d;
    var ins := Insert(rest, t, s[f]);
    assert ins == c + [s[f]] + d;
    calc {
      multiset(ins);
      multiset(c) + multiset([s[f]]) + multiset(d);
      multiset(c + d) + multiset([s[f]]);
      multiset(a + b) + multiset([s[f]]);
      multiset(a) + multiset([s[f]]) + multiset(b);
      multiset(a + [s[f]] + b);
    }
  }

  lemma UnorderedRemove(s: seq<LinkGroup>, i: nat)
    requires i < |s|
    ensures Unordered(Remove(s, i)) == Remove(Unordered(s), i)
  {
  }

  lemma UnorderedInsert(s: seq<LinkGroup>, i: nat, x: LinkGroup)
    requires i <= |s|
    ensures Unordered(Insert(s, i, x)) == Insert(Unordered(s), i, x.(order := 0))
  {
  }

  /** Renumbering depends only on the groups without their `order` fields. */
  lemma RenumberedUnordered(a: seq<LinkGroup>, b: seq<LinkGroup>)
    requires Unordered(a) == Unordered(b)
    ensures Renumbered(a) == Renumbered(b)
  {
    forall i | 0 <= i < |a|
      ensures Renumbered(a)[i] == Renumbered(b)[i]
    {
      assert Unordered(a)[i] == Unordered(b)[i];
    }
  }

  lemma UnorderedRenumbered(s: seq<LinkGroup>)
    ensures Unordered(Renumbered(s)) == Unordered(s)
  {
  }

  lemma RenumberedNumbered(s: seq<LinkGroup>)
    requires Numbered(s)
    ensures Renumbered(s) == s
  {
  }

  /** The groups before the reorder, seen without `order`, after the splice steps. */
  lemma ReorderedUnordered(groups: seq<LinkGroup>, fromIndex: int, toIndex: int)
    requires 0 < |groups| && fromIndex < |groups|
    ensures var f := SpliceStart(fromIndex, |groups|);
            var t := SpliceStart(toIndex, |groups| - 1);
      Unordered(Reordered(groups, fromIndex, toIndex))
        == Insert(Remove(Unordered(groups), f), t, Unordered(groups)[f])
  {
    var f := SpliceStart(fromIndex, |groups|);
    var rest := Remove(groups, f);
    var t := SpliceStart(toIndex, |rest|);
    UnorderedRenumbered(Insert(rest, t, groups[f]));
    UnorderedInsert(rest, t, groups[f]);
    UnorderedRemove(groups, f);
  }

  /** `reorderGroups` is a permutation: the same groups, each moved as a whole, with
      `order` renumbered to the positions; the moved group lands at the clamped target. */
  lemma ReorderPermutes(groups: seq<LinkGroup>, fromIndex: int, toIndex: int)
    requires 0 < |groups| && fromIndex < |groups|
    ensures var r := Reordered(groups, fromIndex, toIndex);
      && |r| == |groups| && Numbered(r)
      && multiset(Unordered(r)) == multiset(Unordered(groups))
      && r[SpliceStart(toIndex, |groups| - 1)]
           == groups[SpliceStart(fromIndex, |groups|)].(order := SpliceStart(toIndex, |groups| - 1))
  {
    var f := SpliceStart(fromIndex, |groups|);
    var t := SpliceStart(toIndex, |groups| - 1);
    ReorderedUnordered(groups, fromIndex, toIndex);
    InsertRemoveMultiset(Unordered(groups), f, t);
  }

  /** Moving a group from `f` to `t` and back from `t` to `f` restores a numbered list:
      the "down" button undoes the "up" button. */
  lemma ReorderRoundTrip(groups: seq<LinkGroup>, f: nat, t: nat)
    requires Numbered(groups) && f < |groups| && t < |groups|
    ensures Reordered(Reordered(groups, f, t), t, f) == groups
  {
    var once := Reordered(groups, f, t);
    var twice := Reordered(once, t, f);
    ReorderedUnordered(groups, f, t);
    ReorderedUnordered(once, t, f);
    var u := Unordered(groups);
    assert Unordered(once) == Insert(Remove(u, f), t, u[f]);
    RemoveInsert(Remove(u, f), t, u[f]);
    InsertRemove(u, f);
    assert Unordered(twice) == u;
    RenumberedNumbered(twice);
    RenumberedNumbered(groups);
    RenumberedUnordered(twice, groups);
  }

  /** Moving group `i` down by one swaps it with its neighbour and renumbers both. */
  lemma MoveDownSwaps(groups: seq<LinkGroup>, i: nat)
    requires i + 1 < |groups|
    ensures var r := Reordered(groups, i, i + 1);
      && r[i] == groups[i + 1].(order := i)
      && r[i + 1] == groups[i].(order := i + 1)
      && forall j :: 0 <= j < |groups| && j != i && j != i + 1 ==> r[j] == groups[j].(order := j)
  {
  }

  // ---------------------------------------------------------------------------
  // The stored list

  /** Some group of the list has the id (`find` succeeds). */
  predicate HasGroup(groups: seq<LinkGroup>, groupId: Id)
  {
    exists i :: 0 <= i < |groups| && groups[i].id == groupId
  }

  /** `loadLinks`: the list `saveLinks` last stored, or, while nothing is stored, the
      default groups with the ids `newId` the generator gives during this call. */
  function Loaded(stored: Option<seq<LinkGroup>>, newId: nat -> Id): (r: seq<LinkGroup>)
    ensures stored.Some? ==> r == stored.value
    ensures stored.None? ==> |r| == 3 && Numbered(r) && forall i :: 0 <= i < 3 ==> !r[i].collapsed
  {
    if stored.Some? then stored.value else DefaultLinks(newId)
  }

  /** While nothing is stored, each load mints new ids for the default groups: a group id
      shown from one load is missing from the next, so adding or removing a link and
      toggling a group by that id change nothing and store nothing. */
  lemma FirstRunMissesShownGroup(earlier: nat -> Id, later: nat -> Id, k: nat)
    requires k < 3
    requires forall j :: later(j) != DefaultLinks(earlier)[k].id
    ensures var groupId := DefaultLinks(earlier)[k].id;
      && !HasGroup(Loaded(None, later), groupId)
      && (forall link :: LinkAdded(Loaded(None, later), groupId, link) == Loaded(None, later))
      && (forall linkId :: LinkRemoved(Loaded(None, later), groupId, linkId) == Loaded(None, later))
      && CollapseToggled(Loaded(None, later), groupId) == Loaded(None, later)
  {
    var groupId := DefaultLinks(earlier)[k].id;
    var d := Loaded(None, later);
    assert forall i :: 0 <= i < |d| ==> d[i].id != groupId by {
      assert d[0].id == later(0) && d[1].id == later(3) && d[2].id == later(5);
    }
    FirstIndexNone(d, groupId);
  }

  lemma FirstIndexNone(groups: seq<LinkGroup>, groupId: Id)
    requires forall i :: 0 <= i < |groups| ==> groups[i].id != groupId
    ensures FirstIndex(groups, (g: LinkGroup) => g.id == groupId).None?
  {
  }

  /** What `localStorage` holds under the links key. */
  class LinkStore {
    /** The list `saveLinks` last wrote; None while nothing is stored. */
    var stored: Option<seq<LinkGroup>>

    /** Nothing stored yet. */
    constructor ()
      ensures stored == None
    {
      stored := None;
    }

    /** `loadLinks`; `newId` stands for the ids generated during the call. */
    method LoadLinks(newId: nat -> Id) returns (r: seq<LinkGroup>)
      ensures r == Loaded(stored, newId)
      ensures stored.None? ==> r == DefaultLinks(newId)
    {
      if stored.Some? {
        r := stored.value;
      } else {
        r := DefaultLinks(newId);
      }
    }

    /** `addLinkGroup`; `id` stands for the generated id of the new group. Always stores. */
    method AddLinkGroup(newId: nat -> Id, id: Id, title: string, emoji: string, color: string) returns (r: seq<LinkGroup>)
      modifies this
      ensures r == GroupAdded(Loaded(old(stored), newId), id, title, emoji, color) && stored == Some(r)
    {
      var groups := LoadLinks(newId);
      var group := LinkGroup(id, title, emoji, color, [], false, |groups|);
      groups := groups + [group];
      stored := Some(groups);
      r := groups;
    }

    /** `addLinkToGroup`: stores only when a group has the id. */
    method AddLinkToGroup(newId: nat -> Id, groupId: Id, linkId: Id, title: string, url: string, emoji: string)
      returns (r: seq<LinkGroup>)
      modifies this
      ensures r == LinkAdded(Loaded(old(stored), newId), groupId, LinkItem(linkId, title, url, emoji))
      ensures stored == if HasGroup(Loaded(old(stored), newId), groupId) then Some(r) else old(stored)
    {
      var groups := LoadLinks(newId);
      var k := FirstIndex(groups, (g: LinkGroup) => g.id == groupId);
      if k.Some? {
        var group := groups[k.value];
        group := group.(links := group.links + [LinkItem(linkId, title, url, emoji)]);
        groups := groups[k.value := group];
        stored := Some(groups);
      }
      r := groups;
    }

    /** `removeLinkFromGroup`: stores only when a group has the id. */
    method RemoveLinkFromGroup(newId: nat -> Id, groupId: Id, linkId: Id) returns (r: seq<LinkGroup>)
      modifies this
      ensures r == LinkRemoved(Loaded(old(stored), newId), groupId, linkId)
      ensures stored == if HasGroup(Loaded(old(stored), newId), groupId) then Some(r) else old(stored)
    {
      var groups := LoadLinks(newId);
      var k := FirstIndex(groups, (g: LinkGroup) => g.id == groupId);
      if k.Some? {
        var group := groups[k.value];
        group := group.(links := Filter(group.links, (l: LinkItem) => l.id != linkId));
        groups := groups[k.value := group];
        stored := Some(groups);
      }
      r := groups;
    }

    /** `deleteLinkGroup`. Always stores. */
    method DeleteLinkGroup(newId: nat -> Id, groupId: Id) returns (r: seq<LinkGroup>)
      modifies this
      ensures r == GroupDeleted(Loaded(old(stored), newId), groupId) && stored == Some(r)
    {
      var groups := LoadLinks(newId);
      groups := Filter(groups, (g: LinkGroup) => g.id != groupId);
      stored := Some(groups);
      r := groups;
    }

    /** `toggleGroupCollapse`: stores only when a group has the id. */
    method ToggleGroupCollapse(newId: nat -> Id, groupId: Id) returns (r: seq<LinkGroup>)
      modifies this
      ensures r == CollapseToggled(Loaded(old(stored), newId), groupId)
      ensures stored == if HasGroup(Loaded(old(stored), newId), groupId) then Some(r) else old(stored)
    {
      var groups := LoadLinks(newId);
      var k := FirstIndex(groups, (g: LinkGroup) => g.id == groupId);
      if k.Some? {
        groups := groups[k.value := groups[k.value].(collapsed := !groups[k.value].collapsed)];
        stored := Some(groups);
      }
      r := groups;
    }

    /** `reorderGroups`. Always stores. */
    method ReorderGroups(newId: nat -> Id, fromIndex: int, toIndex: int) returns (r: seq<LinkGroup>)
      requires 0 < |Loaded(stored, newId)| && fromIndex < |Loaded(stored, newId)|
      modifies this
      ensures r == Reordered(Loaded(old(stored), newId), fromIndex, toIndex) && stored == Some(r)
    {
      var groups := LoadLinks(newId);
      r := SpliceAndRenumber(groups, fromIndex, toIndex);
      stored := Some(r);
    }
  }

  /** The body of `reorderGroups` on the loaded list: two splices, then a renumbering pass. */
  method SpliceAndRenumber(loaded: seq<LinkGroup>, fromIndex: int, toIndex: int) returns (groups: seq<LinkGroup>)
    requires 0 < |loaded| && fromIndex < |loaded|
    ensures groups == Reordered(loaded, fromIndex, toIndex)
  {
    groups := loaded;
    var f := SpliceStart(fromIndex, |groups|);
    var moved := groups[f];
    groups := groups[..f] + groups[f + 1..];
    var t := SpliceStart(toIndex, |groups|);
    groups := groups[..t] + [moved] + groups[t..];
    ghost var spliced := groups;
    var i := 0;
    while i < |groups|
      invariant 0 <= i <= |groups| == |spliced|
      invariant forall j :: 0 <= j < i ==> groups[j] == spliced[j].(order := j)
      invariant forall j :: i <= j < |groups| ==> groups[j] == spliced[j]
    {
      groups := groups[i := groups[i].(order := i)];
      i := i + 1;
    }
  }
}
