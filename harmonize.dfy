/** The sport-context harmoniser: tests over the set of labels of an image, the staged
    per-image pass `harmonize_one` (field coercion, soccer-dominant drop or relabel, the
    legacy fallback, the optional predicate fix, the triplet rebuild) and the document
    driver `harmonize`. */
module Harmonize {
  import opened Text
  import opened Scene

  /** `SOCCER_SET`. */
  const SoccerSet: set<string> := {"bóng đá", "khung thành"}

  /** `BASEBALL_SET`. */
  const BaseballSet: set<string> := {"bóng chày", "gậy bóng chày", "găng bóng chày"}

  /** `TENNIS_SET`. */
  const TennisSet: set<string> := {"bóng tennis", "quả bóng tennis", "vợt tennis", "sân tennis"}

  /** `RELABEL_MAP`, empty in the source. */
  const RelabelMap: map<string, string> := map[]

  const SoccerField: string := "sân bóng đá"
  const BaseballField: string := "sân bóng chày"
  const TennisField: string := "sân tennis"
  const Bat: string := "gậy bóng chày"

  lemma NormalBaseballField() ensures Normal(BaseballField) {}
  lemma NormalTennisField() ensures Normal(TennisField) {}

  // ---------------------------------------------------------------------------
  // Context tests over the labels of an image

  /** `must_convert_field_to_baseball`: a soccer field and a baseball bat. */
  predicate MustConvertFieldToBaseball(names: set<string>) {
    SoccerField in names && Bat in names
  }

  /** `must_convert_field_to_tennis`: a soccer field and some tennis signal. */
  predicate MustConvertFieldToTennis(names: set<string>) {
    SoccerField in names && TennisSet * names != {}
  }

  /** `decide_soccer_dominant`: a soccer field, a soccer signal and no baseball signal. */
  predicate SoccerDominant(names: set<string>) {
    SoccerField in names && SoccerSet * names != {} && BaseballSet * names == {}
  }

  /** `need_convert_field_to_baseball`: a soccer field, a baseball signal and no soccer signal. */
  predicate NeedConvertFieldToBaseball(names: set<string>) {
    SoccerField in names && BaseballSet * names != {} && SoccerSet * names == {}
  }

  // ---------------------------------------------------------------------------
  // Field coercion

  /** One object of a field-coercion loop: a soccer field gets the single label `to`. */
  function ConvertField(to: string): Obj -> Obj {
    (o: Obj) => if Name(o) == SoccerField then o.(names := [to]) else o
  }

  function ConvertFields(objs: seq<Obj>, to: string): seq<Obj> {
    MapSeq(ConvertField(to), objs)
  }

  /** The loop `for o in objs: if _obj_name(o) == "sân bóng đá": o["names"] = [to]`. */
  method ConvertFieldLoop(objs: seq<Obj>, to: string) returns (out: seq<Obj>)
    ensures out == ConvertFields(objs, to)
  {
    out := [];
    for i := 0 to |objs|
      invariant out == ConvertFields(objs[..i], to)
    {
      var o := objs[i];
      var o' := if Name(o) == SoccerField then o.(names := [to]) else o;
      MapSeqStep(ConvertField(to), objs, i);
      out := out + [o'];
    }
    assert objs[..|objs|] == objs;
  }

  /** Coercing the soccer fields to a normal label keeps every object in place with its id
      and box, and relabels exactly the soccer fields. */
  lemma ConvertFieldsKeeps(objs: seq<Obj>, to: string)
    requires Normal(to)
    ensures var r := ConvertFields(objs, to);
      && |r| == |objs|
      && forall k | 0 <= k < |objs| ::
           && r[k].id == objs[k].id && r[k].box == objs[k].box
           && Name(r[k]) == if Name(objs[k]) == SoccerField then to else Name(objs[k])
  {
    var r := ConvertFields(objs, to);
    NormalIsFixed(to);
    forall k | 0 <= k < |objs|
      ensures r[k].id == objs[k].id && r[k].box == objs[k].box
      ensures Name(r[k]) == if Name(objs[k]) == SoccerField then to else Name(objs[k])
    {
      assert r[k] == ConvertField(to)(objs[k]);
    }
  }

  /** Coercing to another label leaves no soccer field behind. */
  lemma ConvertFieldsClears(objs: seq<Obj>, to: string)
    requires Normal(to) && to != SoccerField
    ensures SoccerField !in AllNames(ConvertFields(objs, to))
  {
    var r := ConvertFields(objs, to);
    ConvertFieldsKeeps(objs, to);
    forall o | o in r ensures Name(o) != SoccerField {
      var k :| 0 <= k < |r| && r[k] == o;
    }
  }

  /** Coercing changes something exactly when there is a soccer field. */
  lemma ConvertFieldsChanges(objs: seq<Obj>, to: string)
    requires Normal(to) && to != SoccerField
    ensures ConvertFields(objs, to) == objs <==> SoccerField !in AllNames(objs)
  {
    var r := ConvertFields(objs, to);
    ConvertFieldsKeeps(objs, to);
    if SoccerField in AllNames(objs) {
      var k :| 0 <= k < |objs| && Name(objs[k]) == SoccerField;
      assert Name(r[k]) != Name(objs[k]);
    } else {
      forall k | 0 <= k < |objs| ensures r[k] == objs[k] {
        assert objs[k] in objs;
        assert r[k] == ConvertField(to)(objs[k]);
      }
    }
  }

  /** Step (0): the bat rule first, the tennis rule only when the bat rule does not fire. */
  function FieldStage(objs: seq<Obj>): seq<Obj> {
    var names := MapNames(objs);
    if MustConvertFieldToBaseball(names) then ConvertFields(objs, BaseballField)
    else if MustConvertFieldToTennis(names) then ConvertFields(objs, TennisField)
    else objs
  }

  /** A soccer field with a bat becomes a baseball field; without a bat and with a tennis
      signal it becomes a tennis field; in both cases no soccer field is left. Step (0)
      changes nothing unless the labels hold a soccer field and a bat or a tennis signal. */
  lemma FieldStageSpec(objs: seq<Obj>)
    ensures var r, names := FieldStage(objs), MapNames(objs);
      && (MustConvertFieldToBaseball(names) ==> r == ConvertFields(objs, BaseballField))
      && (!MustConvertFieldToBaseball(names) && MustConvertFieldToTennis(names) ==> r == ConvertFields(objs, TennisField))
      && (MustConvertFieldToBaseball(names) || MustConvertFieldToTennis(names) ==> SoccerField !in AllNames(r))
      && (r != objs ==> SoccerField in names && (Bat in names || TennisSet * names != {}))
  {
    NormalBaseballField();
    NormalTennisField();
    ConvertFieldsClears(objs, BaseballField);
    ConvertFieldsClears(objs, TennisField);
  }

  // ---------------------------------------------------------------------------
  // Step (1): soccer-dominant scenes

  /** `{o.get("object_id") for o in objs if _obj_name(o) in BASEBALL_SET}`. */
  function DropIds(objs: seq<Obj>, labels: set<string>): set<int> {
    set o | o in objs && Name(o) in labels :: o.id
  }

  /** One object of the `relabel` loop with the map `m`. */
  function RelabelOne(m: map<string, string>): Obj -> Obj {
    (o: Obj) => var n := Name(o); if n in m then o.(names := [m[n]]) else o
  }

  function RelabelByMap(objs: seq<Obj>, m: map<string, string>): seq<Obj> {
    MapSeq(RelabelOne(m), objs)
  }

  /** The `relabel` loop over the objects, with the map `m`. */
  method RelabelLoop(objs: seq<Obj>, m: map<string, string>) returns (out: seq<Obj>)
    ensures out == RelabelByMap(objs, m)
  {
    out := [];
    for i := 0 to |objs|
      invariant out == RelabelByMap(objs[..i], m)
    {
      var o := objs[i];
      var n := Name(o);
      var o' := if n in m then o.(names := [m[n]]) else o;
      MapSeqStep(RelabelOne(m), objs, i);
      out := out + [o'];
    }
    assert objs[..|objs|] == objs;
  }

  /** Step (1) on the objects and relationships after step (0). */
  function SoccerStage(objs: seq<Obj>, rels: seq<Rel>, strategy: string): (seq<Obj>, seq<Rel>) {
    if !SoccerDominant(MapNames(objs)) then (objs, rels)
    else if strategy == "drop" then
      var drop := DropIds(objs, BaseballSet);
      (KeepObjects(objs, drop), KeepRelations(rels, drop))
    else if strategy == "relabel" then (RelabelByMap(objs, RelabelMap), rels)
    else (objs, rels)
  }

  /** Relabelling with a map that holds no label of the objects changes nothing; so the
      `relabel` strategy, with the empty `RELABEL_MAP`, never changes anything. */
  lemma {:induction false} RelabelIsIdentity(objs: seq<Obj>, m: map<string, string>)
    requires forall o | o in objs :: Name(o) !in m
    ensures RelabelByMap(objs, m) == objs
  {
    forall k | 0 <= k < |objs| ensures RelabelByMap(objs, m)[k] == objs[k] {
      assert RelabelByMap(objs, m)[k] == RelabelOne(m)(objs[k]);
    }
  }

  /** With unique ids no object carries a label the id-to-name map does not show, so
      labels absent from that map select nothing for removal. */
  lemma DropIdsEmpty(objs: seq<Obj>, labels: set<string>)
    requires UniqueIds(objs) && labels * MapNames(objs) == {}
    ensures DropIds(objs, labels) == {}
  {
    var names := MapNames(objs);
    MapNamesUnique(objs);
    forall o | o in objs ensures Name(o) !in labels {
      assert Name(o) in AllNames(objs);
      assert Name(o) in names;
      assert Name(o) !in labels * names;
    }
  }

  /** So with unique ids the `drop` strategy drops nothing: a soccer-dominant scene has no
      baseball label. */
  lemma DropIsDead(objs: seq<Obj>, rels: seq<Rel>)
    requires UniqueIds(objs) && SoccerDominant(MapNames(objs))
    ensures SoccerStage(objs, rels, "drop") == (objs, rels)
  {
    DropIdsEmpty(objs, BaseballSet);
    KeepObjectsNothing(objs, {});
    KeepRelationsNothing(rels, {});
  }

  /** So with unique ids step (1) never changes anything, whatever the strategy. */
  lemma SoccerStageIdentity(objs: seq<Obj>, rels: seq<Rel>, strategy: string)
    requires UniqueIds(objs)
    ensures SoccerStage(objs, rels, strategy) == (objs, rels)
  {
    if SoccerDominant(MapNames(objs)) {
      DropIsDead(objs, rels);
      RelabelIsIdentity(objs, RelabelMap);
    }
  }

  /** The removal set is read off every object, shadowed or not. */
  lemma DropIdsOfShadowed(first: Obj, second: Obj, other: Obj, labels: set<string>)
    requires first.id == second.id && Name(first) in labels && Name(other) !in labels
    ensures DropIds([first, second, other], labels) == {first.id}
  {
    var objs := [first, second, other];
    assert first in objs;
    forall id | id in DropIds(objs, labels) ensures id == first.id {
      var o :| o in objs && Name(o) in labels && o.id == id;
      assert o == first || o == second || o == other;
    }
  }

  lemma SoccerBallDominant()
    ensures SoccerDominant({SoccerField, "bóng đá"})
    ensures Bat in BaseballSet && "bóng đá" !in BaseballSet
  {
    assert "bóng đá" in SoccerSet * {SoccerField, "bóng đá"};
  }

  /** With a repeated id the scene can look soccer-dominant because the id-to-name map hides a
      baseball label, and then `drop` removes every object under that id: a bat followed by a
      soccer field with the same id and a soccer ball lose both the bat and the field. */
  lemma DuplicateIdDropsField(bat: Obj, field: Obj, ball: Obj, rels: seq<Rel>)
    requires Name(bat) == Bat && Name(field) == SoccerField && Name(ball) == "bóng đá"
    requires bat.id == field.id && ball.id != bat.id
    ensures SoccerStage([bat, field, ball], rels, "drop").0 == [ball]
  {
    ShadowedLabel(bat, field, ball);
    SoccerBallDominant();
    DropIdsOfShadowed(bat, field, ball, BaseballSet);
    KeepOther(bat, field, ball);
  }

  lemma NormalBat() ensures Normal("gậy bóng chày") {}
  lemma NormalSoccerField() ensures Normal("sân bóng đá") {}
  lemma NormalBall() ensures Normal("bóng đá") {}

  // ---------------------------------------------------------------------------
  // Step (2): the legacy fallback

  function FallbackStage(objs: seq<Obj>): seq<Obj> {
    if NeedConvertFieldToBaseball(MapNames(objs)) then ConvertFields(objs, BaseballField) else objs
  }

  /** The fallback changes the objects exactly when, on the recomputed labels, there is a
      soccer field, a baseball signal and no soccer signal; it then leaves no soccer field. */
  lemma FallbackStageSpec(objs: seq<Obj>)
    ensures var r := FallbackStage(objs);
      && (r != objs <==> NeedConvertFieldToBaseball(MapNames(objs)))
      && (r != objs ==> SoccerField !in AllNames(r))
  {
    NormalBaseballField();
    ConvertFieldsClears(objs, BaseballField);
    ConvertFieldsChanges(objs, BaseballField);
  }

  // ---------------------------------------------------------------------------
  // Step (3): the predicate fix

  /** The clothing labels of `_fix_predicate`. */
  const Clothing: set<string> :=
    {"áo", "áo đấu", "áo thi đấu", "đồng phục", "trang phục", "trang phục thể thao", "quần áo"}

  /** `_fix_predicate`. */
  function FixWearPredicate(p: string, objLabel: string): string {
    var q := NormLower(p);
    var o := NormLower(objLabel);
    if q == "đeo" && o in Clothing then "mặc"
    else if q == "đeo" && StartsWith(o, "giày") then "mang"
    else q
  }

  lemma NormalMac() ensures Normal("mặc") {}
  lemma NormalMang() ensures Normal("mang") {}

  /** "đeo" (wear) with a piece of clothing gives "mặc", with a label starting "giày" (shoe)
      gives "mang"; anything else gives the normalised predicate. The result is normal, and
      fixing it again with the same label changes nothing. */
  lemma FixWearPredicateSpec(p: string, objLabel: string)
    ensures var r, q, o := FixWearPredicate(p, objLabel), NormLower(p), NormLower(objLabel);
      && (q == "đeo" && o in Clothing ==> r == "mặc")
      && (q == "đeo" && o !in Clothing && StartsWith(o, "giày") ==> r == "mang")
      && (q != "đeo" || (o !in Clothing && !StartsWith(o, "giày")) ==> r == q)
      && Normal(r)
      && FixWearPredicate(r, objLabel) == r
  {
    var r := FixWearPredicate(p, objLabel);
    NormLowerIsNormal(p);
    NormalMac();
    NormalMang();
    NormalIsFixed(r);
  }

  /** One relationship of the fix loop: its predicate fixed against its object's label. */
  function FixOne(objs: seq<Obj>): Rel -> Rel {
    (x: Rel) => x.(pred := FixWearPredicate(x.pred, LabelOf(objs, x.objectId)))
  }

  function FixPredicates(objs: seq<Obj>, rels: seq<Rel>): seq<Rel> {
    MapSeq(FixOne(objs), rels)
  }

  /** The loop of step (3). */
  method FixPredicatesLoop(objs: seq<Obj>, rels: seq<Rel>) returns (out: seq<Rel>)
    ensures out == FixPredicates(objs, rels)
  {
    var id2name := IdToName(objs);
    out := [];
    for i := 0 to |rels|
      invariant out == FixPredicates(objs, rels[..i])
    {
      var x := rels[i];
      var objLabel := if x.objectId in id2name then id2name[x.objectId] else "";
      var p := FixWearPredicate(x.pred, objLabel);
      MapSeqStep(FixOne(objs), rels, i);
      out := out + [x.(pred := p)];
    }
    assert rels[..|rels|] == rels;
  }

  /** The fix keeps every relationship in place with its ids and is idempotent. */
  lemma FixPredicatesSpec(objs: seq<Obj>, rels: seq<Rel>)
    ensures var r := FixPredicates(objs, rels);
      && |r| == |rels|
      && (forall k | 0 <= k < |rels| :: r[k] == rels[k].(pred := r[k].pred))
      && FixPredicates(objs, r) == r
  {
    var r := FixPredicates(objs, rels);
    forall k | 0 <= k < |rels| ensures FixPredicates(objs, r)[k] == r[k] {
      var x := rels[k];
      FixWearPredicateSpec(x.pred, LabelOf(objs, x.objectId));
      assert r[k] == FixOne(objs)(x);
    }
  }

  // ---------------------------------------------------------------------------
  // `harmonize_one`

  /** The objects and relationships `harmonize_one` leaves. */
  function HarmonizeParts(objs: seq<Obj>, rels: seq<Rel>, strategy: string, fixPredicates: bool): (seq<Obj>, seq<Rel>) {
    var stage := SoccerStage(FieldStage(objs), rels, strategy);
    var objs' := FallbackStage(stage.0);
    (objs', if fixPredicates then FixPredicates(objs', stage.1) else stage.1)
  }

  /** What `harmonize_one` leaves in an annotation. */
  function HarmonizeImage(img: Image, strategy: string, fixPredicates: bool): Image {
    var parts := HarmonizeParts(img.objects, img.relationships, strategy, fixPredicates);
    Image(img.imageId, parts.0, parts.1, Triplets(parts.0, parts.1))
  }

  /** Step (0) as the source runs it: the bat loop, or else the tennis loop. */
  method FieldStep(objs: seq<Obj>) returns (out: seq<Obj>)
    ensures out == FieldStage(objs)
  {
    var names := MapNames(objs);
    out := objs;
    if MustConvertFieldToBaseball(names) {
      out := ConvertFieldLoop(objs, BaseballField);
    } else if MustConvertFieldToTennis(names) {
      out := ConvertFieldLoop(objs, TennisField);
    }
  }

  /** Step (1) as the source runs it, on the labels recomputed after step (0). */
  method SoccerStep(objs: seq<Obj>, rels: seq<Rel>, strategy: string) returns (objs': seq<Obj>, rels': seq<Rel>)
    ensures (objs', rels') == SoccerStage(objs, rels, strategy)
  {
    objs', rels' := objs, rels;
    if SoccerDominant(MapNames(objs)) {
      if strategy == "drop" {
        var drop := DropIds(objs, BaseballSet);
        objs' := KeepObjects(objs, drop);
        rels' := KeepRelations(rels, drop);
      } else if strategy == "relabel" {
        objs' := RelabelLoop(objs, RelabelMap);
      }
    }
  }

  /** Step (2) as the source runs it, on the labels recomputed after step (1). */
  method FallbackStep(objs: seq<Obj>) returns (out: seq<Obj>)
    ensures out == FallbackStage(objs)
  {
    out := objs;
    if NeedConvertFieldToBaseball(MapNames(objs)) {
      out := ConvertFieldLoop(objs, BaseballField);
    }
  }

  /** Steps (0) to (4) of `harmonize_one`, in order, on the annotation's current image. */
  method HarmonizeSteps(img: Image, strategy: string, fixPredicates: bool) returns (r: Image)
    ensures r.imageId == img.imageId
    ensures r == HarmonizeImage(img, strategy, fixPredicates)
  {
    var objs := FieldStep(img.objects);
    var rels;
    objs, rels := SoccerStep(objs, img.relationships, strategy);
    objs := FallbackStep(objs);
    if fixPredicates {
      rels := FixPredicatesLoop(objs, rels);
    }
    var triplets := RebuildTriplets(objs, rels);
    r := Image(img.imageId, objs, rels, triplets);
  }

  /** The per-annotation pass: `ann`'s objects, relationships and triplets are replaced. */
  method HarmonizeOne(ann: Annotation, strategy: string, fixPredicates: bool)
    modifies ann
    ensures ann.View() == HarmonizeImage(old(ann.View()), strategy, fixPredicates)
  {
    var r := HarmonizeSteps(ann.View(), strategy, fixPredicates);
    ann.SetView(r);
  }

  /** A soccer field that step (0) coerces stays coerced: no later step fires, and the image
      ends with the coerced objects and no soccer field. */
  lemma CoercedFieldIsFinal(img: Image, strategy: string, fixPredicates: bool)
    requires var names := MapNames(img.objects);
      MustConvertFieldToBaseball(names) || MustConvertFieldToTennis(names)
    ensures var r := HarmonizeImage(img, strategy, fixPredicates);
      && r.objects == FieldStage(img.objects)
      && SoccerField !in AllNames(r.objects)
  {
    var objs := FieldStage(img.objects);
    FieldStageSpec(img.objects);
    assert SoccerField !in MapNames(objs);
  }

  /** Step (0) keeps every object in place with its id and box. */
  lemma FieldStageKeeps(objs: seq<Obj>)
    ensures var r := FieldStage(objs);
      && |r| == |objs|
      && forall k | 0 <= k < |objs| :: r[k].id == objs[k].id && r[k].box == objs[k].box
  {
    var names := MapNames(objs);
    if MustConvertFieldToBaseball(names) {
      NormalBaseballField();
      ConvertFieldsKeeps(objs, BaseballField);
    } else if MustConvertFieldToTennis(names) {
      NormalTennisField();
      ConvertFieldsKeeps(objs, TennisField);
    }
  }

  /** Step (2) keeps every object in place with its id and box. */
  lemma FallbackStageKeeps(objs: seq<Obj>)
    ensures var r := FallbackStage(objs);
      && |r| == |objs|
      && forall k | 0 <= k < |objs| :: r[k].id == objs[k].id && r[k].box == objs[k].box
  {
    if NeedConvertFieldToBaseball(MapNames(objs)) {
      NormalBaseballField();
      ConvertFieldsKeeps(objs, BaseballField);
    }
  }

  /** With unique ids `harmonize_one` keeps every object in place with its id and box, and
      changes the relationships only through the predicate fix, when it is enabled. */
  lemma HarmonizeKeeps(img: Image, strategy: string, fixPredicates: bool)
    requires UniqueIds(img.objects)
    ensures var r := HarmonizeImage(img, strategy, fixPredicates);
      && r.imageId == img.imageId
      && |r.objects| == |img.objects|
      && (forall k | 0 <= k < |img.objects| ::
            r.objects[k].id == img.objects[k].id && r.objects[k].box == img.objects[k].box)
      && r.relationships == if fixPredicates then FixPredicates(r.objects, img.relationships) else img.relationships
  {
    var o0 := FieldStage(img.objects);
    FieldStageKeeps(img.objects);
    assert UniqueIds(o0);
    SoccerStageIdentity(o0, img.relationships, strategy);
    FallbackStageKeeps(o0);
  }

  // ---------------------------------------------------------------------------
  // `harmonize`

  /** The loop of `harmonize` over the annotations it found. */
  method HarmonizeAll(anns: seq<Annotation>, strategy: string, fixPredicates: bool)
    requires Distinct(anns)
    modifies AnnotationSet(anns)
    ensures forall k | 0 <= k < |anns| ::
      anns[k].View() == HarmonizeImage(old(anns[k].View()), strategy, fixPredicates)
  {
    ghost var before := Views(anns);
    for i := 0 to |anns|
      invariant forall k | 0 <= k < i :: anns[k].View() == HarmonizeImage(before[k], strategy, fixPredicates)
      invariant forall k | i <= k < |anns| :: anns[k].View() == before[k]
    {
      label Before:
      HarmonizeOne(anns[i], strategy, fixPredicates);
      forall k | 0 <= k < |anns| && k != i ensures anns[k].View() == old@Before(anns[k].View()) {
        assert anns[k] != anns[i];
      }
    }
  }

  /** `harmonize`: each annotation of a per-image list, or of a dict's "annotations" list,
      is harmonised in place and the document returned; any other input is rejected. */
  method Harmonize(doc: Document, strategy: string, fixPredicates: bool) returns (r: Result<Document>)
    requires Distinct(Annotations(doc))
    modifies AnnotationSet(Annotations(doc))
    ensures r.Failure? <==> DetectFormat(doc) == Unknown
    ensures r.Failure? ==> r.error == UnsupportedFormat
    ensures r.Ok? ==> r.value == doc
    ensures r.Ok? ==> forall k | 0 <= k < |Annotations(doc)| ::
      Annotations(doc)[k].View() == HarmonizeImage(old(Annotations(doc)[k].View()), strategy, fixPredicates)
    ensures r.Failure? ==> unchanged(AnnotationSet(Annotations(doc)))
  {
    if DetectFormat(doc) == Unknown {
      return Failure(UnsupportedFormat);
    }
    HarmonizeAll(Annotations(doc), strategy, fixPredicates);
    r := Ok(doc);
  }
}
