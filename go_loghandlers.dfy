/** The context-carried log attributes of the Go rewrite
    (golang_app/pkg/loghandlers/contexthandler.go). A context stores a list
    of attributes under a private key; `AppendLogCtx` appends to it,
    `AppendToLogGroup` extends every group of the given name (or adds one),
    and the handler adds the stored attributes to each record before passing
    it on. A context is modelled by the values stored in it; a nil parent is
    `None`. As in Go 1.22's `log/slog`, building a group and adding
    attributes to a record both leave out groups with no attributes. */
module LogContext {
  import opened Wrappers

  datatype AttrValue = Scalar(repr: string) | GroupValue(attrs: seq<Attr>)

  datatype Attr = Attr(key: string, value: AttrValue)

  /** The background context, a context holding the attribute list, or one
      holding a value under some other key. */
  datatype Context =
    | Background
    | WithFields(parent: Context, fields: seq<Attr>)
    | WithOther(parent: Context)

  /** The attribute list the context holds, if any: the innermost one. */
  function Fields(ctx: Context): Option<seq<Attr>> {
    match ctx
    case Background => None
    case WithFields(_, fields) => Some(fields)
    case WithOther(parent) => Fields(parent)
  }

  /** A nil parent is replaced by the background context. */
  function Base(parent: Option<Context>): Context {
    parent.GetOr(Background)
  }

  /** A group holding no attributes. */
  predicate IsEmptyGroup(attr: Attr) {
    attr.value.GroupValue? && attr.value.attrs == []
  }

  /** The attributes with every empty group left out, in order. */
  function NonEmptyGroups(attrs: seq<Attr>): (r: seq<Attr>)
    ensures |r| <= |attrs|
  {
    if attrs == [] then []
    else (if IsEmptyGroup(attrs[0]) then [] else [attrs[0]]) + NonEmptyGroups(attrs[1..])
  }

  /** An attribute is kept exactly when it is in the list and not an empty group. */
  lemma {:induction false} NonEmptyGroupsMembers(attrs: seq<Attr>, a: Attr)
    ensures a in NonEmptyGroups(attrs) <==> a in attrs && !IsEmptyGroup(a)
  {
    if attrs != [] {
      NonEmptyGroupsMembers(attrs[1..], a);
      assert attrs == [attrs[0]] + attrs[1..];
    }
  }

  /** Leaving out empty groups distributes over concatenation. */
  lemma {:induction false} NonEmptyGroupsAppend(a: seq<Attr>, b: seq<Attr>)
    ensures NonEmptyGroups(a + b) == NonEmptyGroups(a) + NonEmptyGroups(b)
  {
    if a == [] {
      assert a + b == b;
    } else {
      assert (a + b)[1..] == a[1..] + b;
      NonEmptyGroupsAppend(a[1..], b);
      var head := if IsEmptyGroup(a[0]) then [] else [a[0]];
      assert NonEmptyGroups(a + b) == head + (NonEmptyGroups(a[1..]) + NonEmptyGroups(b));
      assert NonEmptyGroups(a) == head + NonEmptyGroups(a[1..]);
    }
  }

  /** One more attribute is kept exactly when it is not an empty group. */
  lemma NonEmptyGroupsSnoc(a: seq<Attr>, x: Attr)
    ensures NonEmptyGroups(a + [x]) == NonEmptyGroups(a) + (if IsEmptyGroup(x) then [] else [x])
  {
    NonEmptyGroupsAppend(a, [x]);
    assert [x][1..] == [];
  }

  /** A list without empty groups is kept as it is. */
  lemma {:induction false} NonEmptyGroupsKeepsOthers(attrs: seq<Attr>)
    requires forall i :: 0 <= i < |attrs| ==> !IsEmptyGroup(attrs[i])
    ensures NonEmptyGroups(attrs) == attrs
  {
    if attrs != [] {
      NonEmptyGroupsKeepsOthers(attrs[1..]);
    }
  }

  /** `slog.Group(name, attrs...)`: the group's value leaves out empty groups. */
  function Group(name: string, attrs: seq<Attr>): Attr {
    Attr(name, GroupValue(NonEmptyGroups(attrs)))
  }

  /** `AppendLogCtx`: the parent's attributes, then the new ones, in order. */
  function AppendLogCtx(parent: Option<Context>, attrs: seq<Attr>): (ctx: Context)
    ensures ctx.WithFields? && ctx.parent == Base(parent)
    ensures Fields(ctx) == Some(Fields(Base(parent)).GetOr([]) + attrs)
  {
    var base := Base(parent);
    match Fields(base)
    case Some(v) => WithFields(base, v + attrs)
    case None => WithFields(base, [] + attrs)
  }

  predicate IsGroup(attr: Attr, name: string) {
    attr.key == name && attr.value.GroupValue?
  }

  /** One attribute after the update: a group of that name gets the new
      attributes after its own; anything else is kept. */
  function Extended(attr: Attr, name: string, attrs: seq<Attr>): Attr {
    if IsGroup(attr, name) then Group(name, attr.value.attrs + attrs) else attr
  }

  predicate HasGroup(existing: seq<Attr>, name: string) {
    exists i :: 0 <= i < |existing| && IsGroup(existing[i], name)
  }

  /** The stored list after `AppendToLogGroup`: every matching group
      extended in place, or a new group at the end when none matched. */
  function UpdatedFields(existing: seq<Attr>, name: string, attrs: seq<Attr>): seq<Attr> {
    if HasGroup(existing, name) then seq(|existing|, i requires 0 <= i < |existing| => Extended(existing[i], name, attrs))
    else existing + [Group(name, attrs)]
  }

  function GroupAppended(parent: Option<Context>, name: string, attrs: seq<Attr>): Context {
    var base := Base(parent);
    match Fields(base)
    case None => WithFields(base, [Group(name, attrs)])
    case Some(existing) => WithFields(base, UpdatedFields(existing, name, attrs))
  }

  /** `AppendToLogGroup`, loop and flag as written. */
  method AppendToLogGroup(parent: Option<Context>, groupName: string, attrs: seq<Attr>) returns (ctx: Context)
    ensures ctx == GroupAppended(parent, groupName, attrs)
  {
    var base := if parent.None? then Background else parent.value;
    var stored := Fields(base);
    if stored.None? {
      return WithFields(base, [Group(groupName, attrs)]);
    }
    var existing := stored.value;
    var updated: seq<Attr> := [];
    var groupFound := false;
    for i := 0 to |existing|
      invariant |updated| == i
      invariant forall j :: 0 <= j < i ==> updated[j] == Extended(existing[j], groupName, attrs)
      invariant groupFound <==> exists j :: 0 <= j < i && IsGroup(existing[j], groupName)
    {
      var attr := existing[i];
      if attr.key == groupName && attr.value.GroupValue? {
        var groupAttrs := attr.value.attrs + attrs;
        updated := updated + [Group(groupName, groupAttrs)];
        groupFound := true;
      } else {
        updated := updated + [attr];
      }
    }
    if !groupFound {
      assert updated == existing by {
        forall j | 0 <= j < |existing| ensures updated[j] == existing[j] {
          assert !IsGroup(existing[j], groupName);
        }
      }
      updated := updated + [Group(groupName, attrs)];
    }
    return WithFields(base, updated);
  }

  /** `Handle`: the record's own attributes, then the context's, in order;
      `AddAttrs` leaves out the empty groups. */
  method Handle(ctx: Context, record: seq<Attr>) returns (passed: seq<Attr>)
    ensures passed == record + NonEmptyGroups(Fields(ctx).GetOr([]))
  {
    passed := record;
    var stored := Fields(ctx);
    if stored.Some? {
      var attrs := stored.value;
      for i := 0 to |attrs|
        invariant passed == record + NonEmptyGroups(attrs[..i])
      {
        assert attrs[..i + 1] == attrs[..i] + [attrs[i]];
        NonEmptyGroupsSnoc(attrs[..i], attrs[i]);
        if !IsEmptyGroup(attrs[i]) {
          assert record + NonEmptyGroups(attrs[..i + 1]) == passed + [attrs[i]];
          passed := passed + [attrs[i]];
        }
      }
      assert attrs[..|attrs|] == attrs;
    } else {
      assert record + [] == record;
    }
  }

  /** Every attribute the context holds that is not an empty group reaches
      the record, after the record's own. */
  lemma HandledAttrsKept(ctx: Context, record: seq<Attr>, a: Attr)
    requires Fields(ctx).Some? && a in Fields(ctx).value && !IsEmptyGroup(a)
    ensures a in record + NonEmptyGroups(Fields(ctx).GetOr([]))
  {
    NonEmptyGroupsMembers(Fields(ctx).value, a);
  }

  /** With nothing stored yet, the context holds the one group, holding the
      new attributes that are not empty groups. */
  lemma FirstGroup(parent: Option<Context>, name: string, attrs: seq<Attr>)
    requires Fields(Base(parent)).None?
    ensures Fields(GroupAppended(parent, name, attrs)) == Some([Attr(name, GroupValue(NonEmptyGroups(attrs)))])
  {
  }

  /** A matching group is extended where it stands: the list keeps its length
      and order, and every other attribute or group is unchanged. */
  lemma MatchingGroupExtendedInPlace(existing: seq<Attr>, name: string, attrs: seq<Attr>, k: nat)
    requires k < |existing| && IsGroup(existing[k], name)
    ensures |UpdatedFields(existing, name, attrs)| == |existing|
    ensures UpdatedFields(existing, name, attrs)[k] ==
      Attr(name, GroupValue(NonEmptyGroups(existing[k].value.attrs) + NonEmptyGroups(attrs)))
    ensures forall i :: 0 <= i < |existing| && !IsGroup(existing[i], name) ==>
      UpdatedFields(existing, name, attrs)[i] == existing[i]
  {
    NonEmptyGroupsAppend(existing[k].value.attrs, attrs);
  }

  /** A group that is absent is added at the end; nothing else changes. */
  lemma AbsentGroupAppended(existing: seq<Attr>, name: string, attrs: seq<Attr>)
    requires forall i :: 0 <= i < |existing| ==> !IsGroup(existing[i], name)
    ensures UpdatedFields(existing, name, attrs) == existing + [Attr(name, GroupValue(NonEmptyGroups(attrs)))]
  {
  }

  /** Some group of that name in `fields` ends with `attrs`. */
  predicate HoldsAtEnd(fields: seq<Attr>, name: string, attrs: seq<Attr>) {
    exists i :: 0 <= i < |fields| && IsGroup(fields[i], name) &&
      |fields[i].value.attrs| >= |attrs| &&
      fields[i].value.attrs[|fields[i].value.attrs| - |attrs|..] == attrs
  }

  /** Either way, the group of that name ends up holding the new attributes
      that are not empty groups, after whatever it held before. */
  lemma GroupHoldsNewAttrs(parent: Option<Context>, name: string, attrs: seq<Attr>)
    ensures Fields(GroupAppended(parent, name, attrs)).Some?
    ensures HoldsAtEnd(Fields(GroupAppended(parent, name, attrs)).value, name, NonEmptyGroups(attrs))
  {
    var base := Base(parent);
    var fields := Fields(GroupAppended(parent, name, attrs)).value;
    var kept := NonEmptyGroups(attrs);
    if Fields(base).None? {
      assert fields == [Group(name, attrs)];
      assert kept[0..] == kept;
      assert IsGroup(fields[0], name);
    } else {
      var existing := Fields(base).value;
      if HasGroup(existing, name) {
        var k :| 0 <= k < |existing| && IsGroup(existing[k], name);
        MatchingGroupExtendedInPlace(existing, name, attrs, k);
        var grown := NonEmptyGroups(existing[k].value.attrs) + kept;
        assert fields[k].value.attrs == grown;
        assert grown[|grown| - |kept|..] == kept;
        assert IsGroup(fields[k], name);
      } else {
        var n := |existing|;
        assert fields[n] == Group(name, attrs);
        assert kept[0..] == kept;
        assert IsGroup(fields[n], name);
      }
    }
  }

  /** Without empty groups among them, the group ends with exactly the new attributes. */
  lemma GroupHoldsAllNewAttrs(parent: Option<Context>, name: string, attrs: seq<Attr>)
    requires forall i :: 0 <= i < |attrs| ==> !IsEmptyGroup(attrs[i])
    ensures HoldsAtEnd(Fields(GroupAppended(parent, name, attrs)).value, name, attrs)
  {
    GroupHoldsNewAttrs(parent, name, attrs);
    NonEmptyGroupsKeepsOthers(attrs);
  }

  /** Appending only an empty group to a new group leaves that group empty. */
  lemma EmptyGroupDropped(name: string, inner: string)
    ensures Fields(GroupAppended(None, name, [Group(inner, [])])) == Some([Attr(name, GroupValue([]))])
  {
    assert IsEmptyGroup(Group(inner, []));
    assert NonEmptyGroups([Group(inner, [])]) == [];
  }
}
