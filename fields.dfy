/** The duplicate-field collapser (`drop_extra_fields.py`): per image, the objects are grouped
    by field label ("sân bóng đá", "sân bóng chày", "sân tennis" by default); every label with
    more than one box keeps a single representative, the other boxes of that label and every
    relationship that references them are removed, and the triplets are rebuilt. */
module Fields {
  import opened Text
  import opened Scene
  import opened Geometry

  /** `DEFAULT_FIELD_LABELS`: soccer field, baseball field, tennis court. */
  const DefaultFieldLabels: set<string> := {"sân bóng đá", "sân bóng chày", "sân tennis"}

  /** The policy string that selects the top-most box; any other policy is "largest-area". */
  const LowestY: string := "lowest-y"

  /** `{_lname(x) for x in field_labels}`: the labels as the objects' names are compared. */
  function NormLabels(labels: set<string>): set<string> {
    set x | x in labels :: NormLower(x)
  }

  // ---------------------------------------------------------------------------
  // `_choose_representative`

  /** The "largest-area" score `(-area, object_id)` of `a` is below that of `b`: larger
      area first, then the smaller id. */
  predicate AreaFirst(a: Obj, b: Obj) {
    Area(a.box) > Area(b.box) || (Area(a.box) == Area(b.box) && a.id < b.id)
  }

  /** The "lowest-y" score `(y, -area, object_id)` of `a` is below that of `b`: smaller y
      first, then the "largest-area" order. */
  predicate TopFirst(a: Obj, b: Obj) {
    a.box.y < b.box.y || (a.box.y == b.box.y && AreaFirst(a, b))
  }

  /** `score < best[0]` under `policy`. */
  predicate Beats(a: Obj, b: Obj, policy: string) {
    if policy == LowestY then TopFirst(a, b) else AreaFirst(a, b)
  }

  /** The object the running `best` of `_choose_representative` ends on: a later object
      replaces it only when its score is strictly lower. */
  function Best(group: seq<Obj>, policy: string): (b: Obj)
    requires |group| > 0
    ensures b in group
  {
    if |group| == 1 then group[0]
    else
      assert group == DropLast(group) + [Last(group)];
      var b := Best(DropLast(group), policy);
      if Beats(Last(group), b, policy) then Last(group) else b
  }

  /** The representative has the lowest score of its group: under "largest-area" the largest
      area, ties going to the smaller id; under "lowest-y" the smallest y, then the largest
      area, then the smaller id. */
  lemma {:induction false} BestSpec(group: seq<Obj>, policy: string)
    requires |group| > 0
    ensures var b := Best(group, policy);
      policy != LowestY ==> forall o | o in group ::
        Area(o.box) < Area(b.box) || (Area(o.box) == Area(b.box) && b.id <= o.id)
    ensures var b := Best(group, policy);
      policy == LowestY ==> forall o | o in group ::
        || b.box.y < o.box.y
        || (b.box.y == o.box.y && (Area(o.box) < Area(b.box) || (Area(o.box) == Area(b.box) && b.id <= o.id)))
  {
    if |group| > 1 {
      BestSpec(DropLast(group), policy);
      assert group == DropLast(group) + [Last(group)];
    }
  }

  lemma BestStep(group: seq<Obj>, policy: string, i: nat)
    requires 0 < i < |group|
    ensures Best(group[..i + 1], policy) ==
      var b := Best(group[..i], policy); if Beats(group[i], b, policy) then group[i] else b
  {
    assert DropLast(group[..i + 1]) == group[..i] && Last(group[..i + 1]) == group[i];
  }

  /** `_choose_representative`: an empty group fails its assertion, a single box is returned
      as it is, and otherwise the box of lowest score under the policy, the first on ties. */
  method ChooseRepresentative(group: seq<Obj>, policy: string) returns (r: Result<Obj>)
    ensures r.Failure? <==> group == []
    ensures r.Failure? ==> r.error == EmptyGroup
    ensures |group| == 1 ==> r == Ok(group[0])
    ensures r.Ok? ==> r.value == Best(group, policy)
  {
    if group == [] {
      return Failure(EmptyGroup);
    }
    if |group| == 1 {
      return Ok(group[0]);
    }
    var best: Option<Obj> := None;
    if policy == LowestY {
      for i := 0 to |group|
        invariant best == if i == 0 then None else Some(Best(group[..i], policy))
      {
        var o := group[i];
        if i > 0 {
          BestStep(group, policy, i);
        }
        if best.None? || TopFirst(o, best.value) {
          best := Some(o);
        }
      }
    } else {
      for i := 0 to |group|
        invariant best == if i == 0 then None else Some(Best(group[..i], policy))
      {
        var o := group[i];
        if i > 0 {
          BestStep(group, policy, i);
        }
        if best.None? || AreaFirst(o, best.value) {
          best := Some(o);
        }
      }
    }
    assert group[..|group|] == group;
    r := Ok(best.value);
  }

  // ---------------------------------------------------------------------------
  // Grouping by field label

  /** `by_field[label]`: the objects named `label`, in their order. */
  function WithName(objs: seq<Obj>, field: string): (r: seq<Obj>)
    ensures |r| <= |objs|
    ensures forall o :: o in r <==> o in objs && Name(o) == field
  {
    if objs == [] then []
    else
      assert objs == DropLast(objs) + [Last(objs)];
      WithName(DropLast(objs), field) + (if Name(Last(objs)) == field then [Last(objs)] else [])
  }

  lemma WithNameStep(objs: seq<Obj>, field: string, i: nat)
    requires i < |objs|
    ensures WithName(objs[..i + 1], field) ==
      WithName(objs[..i], field) + (if Name(objs[i]) == field then [objs[i]] else [])
  {
    assert DropLast(objs[..i + 1]) == objs[..i] && Last(objs[..i + 1]) == objs[i];
  }

  /** A label no object carries has an empty group. */
  lemma {:induction false} WithNameAbsent(objs: seq<Obj>, field: string)
    requires forall o | o in objs :: Name(o) != field
    ensures WithName(objs, field) == []
  {
    if objs != [] {
      assert objs == DropLast(objs) + [Last(objs)];
      WithNameAbsent(DropLast(objs), field);
    }
  }

  /** The `by_field` dict: one key per field label some object carries, mapped to the
      objects with that label in their order. */
  predicate GroupedBy(byField: map<string, seq<Obj>>, objs: seq<Obj>, labels: set<string>) {
    && byField.Keys == AllNames(objs) * labels
    && forall l | l in byField :: byField[l] == WithName(objs, l)
  }

  lemma AllNamesStep(objs: seq<Obj>, i: nat)
    requires i < |objs|
    ensures AllNames(objs[..i + 1]) == AllNames(objs[..i]) + {Name(objs[i])}
  {
    assert objs[..i + 1] == objs[..i] + [objs[i]];
  }

  lemma AddOutside<T>(a: set<T>, b: set<T>, x: T)
    requires x !in b
    ensures (a + {x}) * b == a * b
  {
  }

  lemma AddInside<T>(a: set<T>, b: set<T>, x: T)
    requires x in b
    ensures (a + {x}) * b == a * b + {x}
  {
  }

  /** An object without a field label leaves `by_field` as it is. */
  lemma GroupedSkip(byField: map<string, seq<Obj>>, objs: seq<Obj>, labels: set<string>, i: nat)
    requires i < |objs| && GroupedBy(byField, objs[..i], labels) && Name(objs[i]) !in labels
    ensures GroupedBy(byField, objs[..i + 1], labels)
  {
    AllNamesStep(objs, i);
    AddOutside(AllNames(objs[..i]), labels, Name(objs[i]));
    forall l | l in byField ensures byField[l] == WithName(objs[..i + 1], l) {
      WithNameStep(objs, l, i);
    }
  }

  /** An object with a field label extends its label's group. */
  lemma GroupedAdd(byField: map<string, seq<Obj>>, objs: seq<Obj>, labels: set<string>, i: nat)
    requires i < |objs| && GroupedBy(byField, objs[..i], labels) && Name(objs[i]) in labels
    ensures var n := Name(objs[i]);
      GroupedBy(byField[n := WithName(objs[..i + 1], n)], objs[..i + 1], labels)
  {
    GroupedAddKeys(byField, objs, labels, i);
    GroupedAddValues(byField, objs, labels, i);
  }

  lemma GroupedAddKeys(byField: map<string, seq<Obj>>, objs: seq<Obj>, labels: set<string>, i: nat)
    requires i < |objs| && byField.Keys == AllNames(objs[..i]) * labels && Name(objs[i]) in labels
    ensures var n := Name(objs[i]);
      byField[n := WithName(objs[..i + 1], n)].Keys == AllNames(objs[..i + 1]) * labels
  {
    var n := Name(objs[i]);
    AllNamesStep(objs, i);
    AddInside(AllNames(objs[..i]), labels, n);
    assert byField[n := WithName(objs[..i + 1], n)].Keys == byField.Keys + {n};
  }

  lemma GroupedAddValues(byField: map<string, seq<Obj>>, objs: seq<Obj>, labels: set<string>, i: nat)
    requires i < |objs| && forall l | l in byField :: byField[l] == WithName(objs[..i], l)
    ensures var n := Name(objs[i]); var m := byField[n := WithName(objs[..i + 1], n)];
      forall l | l in m :: m[l] == WithName(objs[..i + 1], l)
  {
    var n := Name(objs[i]);
    var m := byField[n := WithName(objs[..i + 1], n)];
    forall l | l in m ensures m[l] == WithName(objs[..i + 1], l) {
      if l != n {
        WithNameStep(objs, l, i);
      }
    }
  }

  /** The group `by_field.setdefault(n, [])` starts from: the objects so far named `n`. */
  lemma GroupSoFar(byField: map<string, seq<Obj>>, objs: seq<Obj>, labels: set<string>, i: nat)
    requires i < |objs| && GroupedBy(byField, objs[..i], labels) && Name(objs[i]) in labels
    ensures var n := Name(objs[i]);
      WithName(objs[..i + 1], n) == (if n in byField then byField[n] else []) + [objs[i]]
  {
    var n := Name(objs[i]);
    WithNameStep(objs, n, i);
    if n !in byField {
      WithNameAbsent(objs[..i], n);
    }
  }

  /** One turn of the loop that fills `by_field`: `by_field.setdefault(n, []).append(o)`
      for an object `o` whose label `n` is a field label. */
  method AddToGroup(byField: map<string, seq<Obj>>, objs: seq<Obj>, labels: set<string>, i: nat)
    returns (byField': map<string, seq<Obj>>)
    requires i < |objs| && GroupedBy(byField, objs[..i], labels)
    ensures GroupedBy(byField', objs[..i + 1], labels)
  {
    var o := objs[i];
    var n := Name(o);
    byField' := byField;
    if n in labels {
      GroupSoFar(byField, objs, labels, i);
      GroupedAdd(byField, objs, labels, i);
      var group := if n in byField then byField[n] else [];
      byField' := byField[n := group + [o]];
    } else {
      GroupedSkip(byField, objs, labels, i);
    }
  }

  /** The loop that fills `by_field`. */
  method GroupByField(objs: seq<Obj>, labels: set<string>) returns (byField: map<string, seq<Obj>>)
    ensures GroupedBy(byField, objs, labels)
  {
    byField := map[];
    for i := 0 to |objs|
      invariant GroupedBy(byField, objs[..i], labels)
    {
      byField := AddToGroup(byField, objs, labels, i);
    }
    assert objs[..|objs|] == objs;
  }

  // ---------------------------------------------------------------------------
  // The ids to drop

  /** An extra box: it has a field label in `labels`, its label has several boxes, and its
      id is not that of the label's representative. */
  predicate IsExtra(objs: seq<Obj>, labels: set<string>, policy: string, o: Obj) {
    var g := WithName(objs, Name(o));
    Name(o) in labels && |g| > 1 && o.id != Best(g, policy).id
  }

  /** `drop_ids`: the ids of the extra boxes. */
  function DropIds(objs: seq<Obj>, labels: set<string>, policy: string): set<int> {
    set o | o in objs && IsExtra(objs, labels, policy, o) :: o.id
  }

  /** What one group adds to `drop_ids`: nothing for a single box, otherwise every id that
      differs from the representative's. */
  function GroupDrop(group: seq<Obj>, policy: string): set<int> {
    if |group| <= 1 then {} else set o | o in group && o.id != Best(group, policy).id :: o.id
  }

  /** More labels drop more ids. */
  lemma DropIdsMono(objs: seq<Obj>, done: set<string>, more: set<string>, policy: string)
    requires done <= more
    ensures DropIds(objs, done, policy) <= DropIds(objs, more, policy)
  {
    forall id | id in DropIds(objs, done, policy) ensures id in DropIds(objs, more, policy) {
      var o :| o in objs && IsExtra(objs, done, policy, o) && o.id == id;
      assert IsExtra(objs, more, policy, o);
    }
  }

  /** A handled label contributes its group drop. */
  lemma GroupDropIn(objs: seq<Obj>, labels: set<string>, field: string, policy: string)
    requires field in labels
    ensures GroupDrop(WithName(objs, field), policy) <= DropIds(objs, labels, policy)
  {
    var g := WithName(objs, field);
    forall id | id in GroupDrop(g, policy) ensures id in DropIds(objs, labels, policy) {
      var o :| o in g && o.id != Best(g, policy).id && o.id == id;
      assert IsExtra(objs, labels, policy, o);
    }
  }

  /** An extra box of one more label is in that label's group drop. */
  lemma DropIdsSplit(objs: seq<Obj>, done: set<string>, field: string, policy: string)
    ensures DropIds(objs, done + {field}, policy) <=
      DropIds(objs, done, policy) + GroupDrop(WithName(objs, field), policy)
  {
    forall o | o in objs && IsExtra(objs, done + {field}, policy, o)
      ensures o.id in DropIds(objs, done, policy) + GroupDrop(WithName(objs, field), policy)
    {
      ExtraSplit(objs, done, field, policy, o);
    }
  }

  lemma ExtraSplit(objs: seq<Obj>, done: set<string>, field: string, policy: string, o: Obj)
    requires o in objs && IsExtra(objs, done + {field}, policy, o)
    ensures IsExtra(objs, done, policy, o) || o.id in GroupDrop(WithName(objs, field), policy)
  {
    if Name(o) !in done {
      assert o in WithName(objs, field);
    }
  }

  /** Handling one more label adds exactly that label's group drop. */
  lemma DropIdsStep(objs: seq<Obj>, done: set<string>, field: string, policy: string)
    ensures DropIds(objs, done + {field}, policy) ==
      DropIds(objs, done, policy) + GroupDrop(WithName(objs, field), policy)
  {
    DropIdsMono(objs, done, done + {field}, policy);
    GroupDropIn(objs, done + {field}, field, policy);
    DropIdsSplit(objs, done, field, policy);
  }

  /** The inner loop `for o in group: if o["object_id"] != rep_id: drop_ids.add(...)`. */
  method AddOthers(drop: set<int>, group: seq<Obj>, repId: int) returns (drop': set<int>)
    ensures drop' == drop + set o | o in group && o.id != repId :: o.id
  {
    drop' := drop;
    for j := 0 to |group|
      invariant drop' == drop + set o | o in group[..j] && o.id != repId :: o.id
    {
      assert group[..j + 1] == group[..j] + [group[j]];
      if group[j].id != repId {
        drop' := drop' + {group[j].id};
      }
    }
    assert group[..|group|] == group;
  }

  /** One turn of the loop over `by_field.items()`: a group with several boxes chooses its
      representative and drops the other ids. */
  method VisitField(objs: seq<Obj>, labels: set<string>, byField: map<string, seq<Obj>>, policy: string,
                    ghost done: set<string>, field: string, drop: set<int>) returns (drop': set<int>)
    requires GroupedBy(byField, objs, labels) && field in byField
    requires drop == DropIds(objs, done, policy)
    ensures drop' == DropIds(objs, done + {field}, policy)
  {
    var group := byField[field];
    drop' := drop;
    if |group| > 1 {
      var rep := ChooseRepresentative(group, policy);
      drop' := AddOthers(drop, group, rep.value.id);
    }
    DropIdsStep(objs, done, field, policy);
  }

  lemma TakeOne<T>(all: set<T>, todo: set<T>, x: T)
    requires x in todo && x in all
    ensures all - (todo - {x}) == (all - todo) + {x}
  {
  }

  /** Only the labels some object carries matter. */
  lemma DropIdsCarried(objs: seq<Obj>, labels: set<string>, policy: string)
    ensures DropIds(objs, AllNames(objs) * labels, policy) == DropIds(objs, labels, policy)
  {
    forall o | o in objs ensures Name(o) in AllNames(objs) {
    }
  }

  /** The loop over `by_field.items()`. */
  method CollectDropIds(objs: seq<Obj>, labels: set<string>, byField: map<string, seq<Obj>>, policy: string)
    returns (drop: set<int>)
    requires GroupedBy(byField, objs, labels)
    ensures drop == DropIds(objs, labels, policy)
  {
    drop := {};
    var todo := byField.Keys;
    while todo != {}
      invariant todo <= byField.Keys
      invariant drop == DropIds(objs, byField.Keys - todo, policy)
      decreases todo
    {
      var field :| field in todo;
      drop := VisitField(objs, labels, byField, policy, byField.Keys - todo, field, drop);
      TakeOne(byField.Keys, todo, field);
      todo := todo - {field};
    }
    assert byField.Keys - todo == byField.Keys;
    DropIdsCarried(objs, labels, policy);
  }

  // ---------------------------------------------------------------------------
  // `drop_extra_fields_in_image`

  /** What `drop_extra_fields_in_image` leaves in an annotation. */
  function FieldImage(img: Image, labels: set<string>, policy: string): Image {
    var drop := DropIds(img.objects, NormLabels(labels), policy);
    var objs := if drop != {} then KeepObjects(img.objects, drop) else img.objects;
    var rels := if drop != {} then KeepRelations(img.relationships, drop) else img.relationships;
    Image(img.imageId, objs, rels, Triplets(objs, rels))
  }

  /** `drop_extra_fields_in_image` on the annotation's current image. */
  method FieldSteps(img: Image, labels: set<string>, policy: string) returns (r: Image)
    ensures r.imageId == img.imageId
    ensures r == FieldImage(img, labels, policy)
  {
    var objs, rels := img.objects, img.relationships;
    var fieldLabels := NormLabels(labels);
    var byField := GroupByField(objs, fieldLabels);
    var drop := CollectDropIds(objs, fieldLabels, byField, policy);
    if drop != {} {
      objs := KeepObjects(objs, drop);
      rels := KeepRelations(rels, drop);
    }
    var triplets := RebuildTriplets(objs, rels);
    r := Image(img.imageId, objs, rels, triplets);
  }

  /** The per-annotation pass: `ann`'s objects and relationships lose the extra boxes and its
      triplets are rebuilt. */
  method DropOne(ann: Annotation, labels: set<string>, policy: string)
    modifies ann
    ensures ann.View() == FieldImage(old(ann.View()), labels, policy)
  {
    var r := FieldSteps(ann.View(), labels, policy);
    ann.SetView(r);
  }

  // ---------------------------------------------------------------------------
  // Properties of `drop_extra_fields_in_image`

  /** Whether or not anything is dropped, the result is the removal of the dropped ids. */
  lemma FieldImageKeeps(img: Image, labels: set<string>, policy: string)
    ensures var drop, r := DropIds(img.objects, NormLabels(labels), policy), FieldImage(img, labels, policy);
      && r.objects == KeepObjects(img.objects, drop)
      && r.relationships == KeepRelations(img.relationships, drop)
  {
    var drop := DropIds(img.objects, NormLabels(labels), policy);
    if drop == {} {
      KeepObjectsNothing(img.objects, drop);
      KeepRelationsNothing(img.relationships, drop);
    }
  }

  /** Only ids of field boxes are dropped, so a relationship is removed exactly when it
      references a dropped id: relationships that referenced no field box, dangling ones
      included, survive. */
  lemma RelationsKept(img: Image, labels: set<string>, policy: string)
    ensures var drop := DropIds(img.objects, NormLabels(labels), policy);
      forall id | id in drop :: exists o | o in img.objects :: o.id == id && Name(o) in NormLabels(labels)
    ensures var drop, r := DropIds(img.objects, NormLabels(labels), policy), FieldImage(img, labels, policy);
      forall x | x in img.relationships ::
        x in r.relationships <==> x.subjectId !in drop && x.objectId !in drop
  {
    FieldImageKeeps(img, labels, policy);
  }

  /** With unique ids exactly the extra boxes go: every other object, field or not, stays. */
  lemma ObjectsKept(img: Image, labels: set<string>, policy: string)
    requires UniqueIds(img.objects)
    ensures var r := FieldImage(img, labels, policy);
      forall o | o in img.objects ::
        o in r.objects <==> !IsExtra(img.objects, NormLabels(labels), policy, o)
  {
    var objs, fl := img.objects, NormLabels(labels);
    FieldImageKeeps(img, labels, policy);
    forall o | o in objs && o.id in DropIds(objs, fl, policy) ensures IsExtra(objs, fl, policy, o) {
      var p :| p in objs && IsExtra(objs, fl, policy, p) && p.id == o.id;
      SameIdSameObject(objs, o, p);
    }
  }

  /** Two boxes of one field label whose ids are not dropped share an id: the
      representative's when the label has several boxes. */
  lemma KeptShareId(objs: seq<Obj>, labels: set<string>, policy: string, a: Obj, b: Obj)
    requires a in objs && b in objs && Name(a) == Name(b) && Name(a) in labels
    requires a.id !in DropIds(objs, labels, policy) && b.id !in DropIds(objs, labels, policy)
    ensures a.id == b.id
  {
    var g := WithName(objs, Name(a));
    assert a in g && b in g;
    if |g| > 1 {
      assert !IsExtra(objs, labels, policy, a) && !IsExtra(objs, labels, policy, b);
    } else {
      var i :| 0 <= i < |g| && g[i] == a;
      var j :| 0 <= j < |g| && g[j] == b;
      assert i == j;
    }
  }

  /** After the pass all boxes of one field label share an id. */
  lemma GroupsShareId(img: Image, labels: set<string>, policy: string, a: Obj, b: Obj)
    requires var r := FieldImage(img, labels, policy);
      a in r.objects && b in r.objects && Name(a) == Name(b) && Name(a) in NormLabels(labels)
    ensures a.id == b.id
  {
    FieldImageKeeps(img, labels, policy);
    KeptShareId(img.objects, NormLabels(labels), policy, a, b);
  }

  /** Running the pass again drops nothing and changes nothing. */
  lemma Idempotent(img: Image, labels: set<string>, policy: string)
    ensures var r := FieldImage(img, labels, policy);
      FieldImage(r, labels, policy) == r
  {
    var r, fl := FieldImage(img, labels, policy), NormLabels(labels);
    forall o | o in r.objects ensures !IsExtra(r.objects, fl, policy, o) {
      var g := WithName(r.objects, Name(o));
      if Name(o) in fl && |g| > 1 {
        var b := Best(g, policy);
        GroupsShareId(img, labels, policy, o, b);
      }
    }
    assert DropIds(r.objects, fl, policy) == {};
  }

  lemma {:induction false} KeepObjectsUnique(objs: seq<Obj>, drop: set<int>)
    requires UniqueIds(objs)
    ensures UniqueIds(KeepObjects(objs, drop))
  {
    if objs != [] {
      var init := DropLast(objs);
      assert objs == init + [Last(objs)];
      KeepObjectsUnique(init, drop);
      var k := KeepObjects(init, drop);
      forall o | o in k ensures o.id != Last(objs).id {
        var i :| 0 <= i < |init| && init[i] == o;
        assert objs[i] == o;
      }
    }
  }

  /** With unique ids the representative of a label's group is not dropped, and it is the
      only box of that label that stays. */
  lemma KeptOnePerField(objs: seq<Obj>, labels: set<string>, policy: string, field: string)
    requires UniqueIds(objs) && field in labels
    ensures var g, kept := WithName(objs, field), KeepObjects(objs, DropIds(objs, labels, policy));
      && (g == [] ==> forall o | o in kept :: Name(o) != field)
      && (g != [] ==> Best(g, policy) in kept && forall o | o in kept && Name(o) == field :: o == Best(g, policy))
  {
    var drop := DropIds(objs, labels, policy);
    var g, kept := WithName(objs, field), KeepObjects(objs, drop);
    if g == [] {
      forall o | o in kept ensures Name(o) != field {
        assert o in objs && o !in g;
      }
    } else {
      var b := Best(g, policy);
      forall o | o in objs && o.id == b.id ensures o == b {
        SameIdSameObject(objs, o, b);
      }
      assert b.id !in drop;
      forall o | o in kept && Name(o) == field ensures o == b {
        KeptShareId(objs, labels, policy, o, b);
        SameIdSameObject(objs, o, b);
      }
    }
  }

  /** With unique ids each field label keeps at most one box, its group's representative,
      and the ids stay unique. */
  lemma AtMostOnePerField(img: Image, labels: set<string>, policy: string, field: string)
    requires UniqueIds(img.objects) && field in NormLabels(labels)
    ensures var g, r := WithName(img.objects, field), FieldImage(img, labels, policy);
      && UniqueIds(r.objects)
      && (g == [] ==> forall o | o in r.objects :: Name(o) != field)
      && (g != [] ==> Best(g, policy) in r.objects && forall o | o in r.objects && Name(o) == field :: o == Best(g, policy))
  {
    FieldImageKeeps(img, labels, policy);
    KeepObjectsUnique(img.objects, DropIds(img.objects, NormLabels(labels), policy));
    KeptOnePerField(img.objects, NormLabels(labels), policy, field);
  }

  /** The rebuilt triplets have two non-empty names each, so there are no more of them than
      relationships, which are no more than before. */
  lemma FieldTriplets(img: Image, labels: set<string>, policy: string)
    ensures var r := FieldImage(img, labels, policy);
      && |r.triplets| <= |r.relationships| <= |img.relationships|
      && forall t | t in r.triplets :: t.subj != "" && t.obj != ""
  {
    var r := FieldImage(img, labels, policy);
    TripletsSound(r.objects, r.relationships);
  }

  // ---------------------------------------------------------------------------
  // `process_data`

  /** The loop of `process_data` over the annotations it found. */
  method DropAll(anns: seq<Annotation>, labels: set<string>, policy: string)
    requires Distinct(anns)
    modifies AnnotationSet(anns)
    ensures forall k | 0 <= k < |anns| ::
      anns[k].View() == FieldImage(old(anns[k].View()), labels, policy)
  {
    ghost var before := Views(anns);
    for i := 0 to |anns|
      invariant forall k | 0 <= k < i :: anns[k].View() == FieldImage(before[k], labels, policy)
      invariant forall k | i <= k < |anns| :: anns[k].View() == before[k]
    {
      label Before:
      DropOne(anns[i], labels, policy);
      forall k | 0 <= k < |anns| && k != i ensures anns[k].View() == old@Before(anns[k].View()) {
        assert anns[k] != anns[i];
      }
    }
  }

  /** `process_data`: each annotation of a per-image list, or of a dict's "annotations" list,
      loses its extra field boxes in place and the document is returned; any other input
      raises `ValueError`. */
  method DropExtraFields(doc: Document, labels: set<string>, policy: string) returns (r: Result<Document>)
    requires Distinct(Annotations(doc))
    modifies AnnotationSet(Annotations(doc))
    ensures r.Failure? <==> DetectFormat(doc) == Unknown
    ensures r.Failure? ==> r.error == UnsupportedFormat
    ensures r.Ok? ==> r.value == doc
    ensures r.Ok? ==> forall k | 0 <= k < |Annotations(doc)| ::
      Annotations(doc)[k].View() == FieldImage(old(Annotations(doc)[k].View()), labels, policy)
    ensures r.Failure? ==> unchanged(AnnotationSet(Annotations(doc)))
  {
    if DetectFormat(doc) == Unknown {
      return Failure(UnsupportedFormat);
    }
    DropAll(Annotations(doc), labels, policy);
    r := Ok(doc);
  }
}
