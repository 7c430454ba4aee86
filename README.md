# VietSGG annotation correction, modelled in Dafny

VietSGG builds a Vietnamese scene-graph dataset. Each image carries the following:

- objects: an `object_id`, a `names` list whose first entry is the label, and an integer `x, y, w, h` box;
- relationships: `subject_id`, `predicate`, `object_id`;
- derived `triplets` of names, for human inspection.

Four rule-based passes correct these annotations. This project models them and proves what each one guarantees.

- **Triplet standardiser** (`standardize_relationships_vi.py`, module `Standardize`, file `standardize.dfy`).
  - Object labels are lower-cased, trimmed and mapped through a synonym table.
  - Predicates are rewritten by ordered contextual rules.
  - Implausible triples are rejected by the rule table's patterns. Its regular expressions are written as the finite string sets and substring tests they denote.
  - Applied to simple triplet lists and to per-image annotations, and `standardize_file` dispatches on the detected format.
- **Sport-context harmoniser** (`data-cleaning/harmonize_sport_context.py`, module `Harmonize`), per image:
  - label-set tests;
  - bat- or tennis-driven coercion of "sân bóng đá";
  - the soccer-dominant `drop`/`relabel` step;
  - the legacy fallback coercion;
  - the optional "đeo" predicate fix;
  - the triplet rebuild.
- **Mislabelled-ball filter** (`data-cleaning/filter_mislabel_soccer_in_baseball.py`, module `Mislabel`).
  - Applies in a baseball or tennis scene without a soccer field.
  - The soccer balls are grouped greedily by IoU.
  - The largest box of each group is its representative. It is dropped always, or only when it overlaps a baseball ball.
  - Relationships that reference a dropped id go with it.
- **Duplicate-field collapser** (`data-cleaning/drop_extra_fields.py`, module `Fields`).
  - Field objects are grouped by label.
  - Each group keeps one representative, chosen by the "largest-area" or "lowest-y" lexicographic score.
  - The other boxes of the group are dropped, with their relationships.

Shared pieces:

- **`Text`**: the `strip().lower()` normaliser.
- **`Geometry`**: integer box area, intersection and IoU.
- **`Scene`**:
  - the values of the scene graph and the id-to-name map;
  - the relationship-integrity step every pass ends with: prune relationships that reference removed ids, then rebuild `triplets` only where both names are non-empty;
  - format detection;
  - the `Annotation` class.

The cleaning passes update the annotation dicts in place. So `Annotation` is a class whose `objects`, `relationships` and `triplets` fields the per-image methods reassign. Each method is proved equal to a specification function on values (`HarmonizeImage`, `FilterImage`, `FieldImage`), and the properties of the passes are lemmas about those functions. Loops of the source are methods with loop invariants, each proved equal to the function it computes.

Three behaviours of the source are made explicit.

- **Harmoniser `names` set.** The harmoniser computes its label set as `set(id2name.values())`. So when two objects share an id, the earlier one's label is invisible to the context tests, but its id is still removed by the `drop` step. With unique ids the `drop` and `relabel` branches never change anything.
- **Standardiser pattern check.** The implausibility check sees the already rewritten predicate. So the patterns for (găng bóng chày, trên, sân bóng đá) and (sân bóng chày, trên, sân bóng đá) can never fire.
- **Objects are removed by id.** The field collapser promises at most one object per field label (data-cleaning/drop_extra_fields.py:97), and the filter promises to keep the duplicates a representative absorbed. Both remove objects by id, so both promises fail when ids are shared: two boxes of one field label with the same id both survive the collapser, and a duplicate sharing its representative's id is removed with it. `Fields.ObjectsKept`, `Fields.KeptOnePerField`, `Fields.AtMostOnePerField`, `Mislabel.OnlyRepresentativesDropped` and `Mislabel.RepresentativeDropped` therefore assume unique ids; `Fields.GroupsShareId` holds for every input: kept objects of one field label all carry the same id.

## Model

| member | source | states |
|---|---|---|
| Text.LowerChar | standardize_relationships_vi.py:58-67 | lower-casing one character yields no upper-case letter, keeps whitespace status, and leaves non-upper-case characters alone |
| Text.Lower | standardize_relationships_vi.py:58-67 | `lower()` keeps the length and lower-cases every position |
| Text.StripLeft | standardize_relationships_vi.py:58-67 | left strip returns a suffix of the input that does not start with whitespace |
| Text.StripRight | standardize_relationships_vi.py:58-67 | right strip returns a prefix of the input that does not end with whitespace |
| Text.StripEnds | standardize_relationships_vi.py:58-67 | a stripped string is empty or has no whitespace at either end |
| Text.NormLowerIsNormal | standardize_relationships_vi.py:58-67 | the normaliser's output is trimmed and holds no upper-case letter |
| Text.NormalIsFixed | standardize_relationships_vi.py:58-67 | a trimmed lower-case string is left unchanged by the normaliser |
| Text.NormLowerIdempotent | standardize_relationships_vi.py:58-67 | normalising twice equals normalising once |
| Geometry.Area | data-cleaning/filter_mislabel_soccer_in_baseball.py:51-53 | the area (also `_area` of drop_extra_fields.py) clamps negative sides: non-negative, and zero exactly when width or height is not positive |
| Geometry.Overlap | data-cleaning/filter_mislabel_soccer_in_baseball.py:56-65 | the overlap of two extents on one axis lies between 0 and each clamped extent |
| Geometry.Intersect | data-cleaning/filter_mislabel_soccer_in_baseball.py:56-65 | the intersection area is non-negative |
| Geometry.IntersectBounds | data-cleaning/filter_mislabel_soccer_in_baseball.py:56-65 | the intersection is symmetric and at most the area of each box |
| Geometry.Union | data-cleaning/filter_mislabel_soccer_in_baseball.py:68-74 | the IoU denominator is at least each area and at least the intersection |
| Geometry.IoU | data-cleaning/filter_mislabel_soccer_in_baseball.py:68-74 | IoU always lies in [0, 1] |
| Geometry.IoUSymmetric | data-cleaning/filter_mislabel_soccer_in_baseball.py:68-74 | IoU is symmetric |
| Geometry.IoUSelf | data-cleaning/filter_mislabel_soccer_in_baseball.py:68-74 | a box of positive area has IoU 1 with itself |
| Geometry.IoUDisjoint | data-cleaning/filter_mislabel_soccer_in_baseball.py:68-74 | boxes separated on either axis have intersection 0 and IoU 0 |
| Geometry.IoUDegenerate | data-cleaning/filter_mislabel_soccer_in_baseball.py:68-74 | two zero-area boxes have a zero denominator and IoU 0 |
| Scene.Name | data-cleaning/filter_mislabel_soccer_in_baseball.py:41-43 | an object's label is the normalised first name, "" when `names` is empty, and is always normal |
| Scene.IdToName | data-cleaning/harmonize_sport_context.py:165 | the id-to-name map has exactly the objects' ids as keys |
| Scene.IdToNameSnoc | data-cleaning/harmonize_sport_context.py:165 | a later object overrides the label recorded under its id |
| Scene.IdToNameLabels | data-cleaning/harmonize_sport_context.py:165-166 | every value of the id-to-name map is the label of some object |
| Scene.MapNames | data-cleaning/harmonize_sport_context.py:166 | `set(id2name.values())` holds only labels of objects |
| Scene.LabelOfUnique | data-cleaning/harmonize_sport_context.py:165 | with unique ids, looking up an object's id gives that object's label |
| Scene.MapNamesUnique | data-cleaning/harmonize_sport_context.py:165-166 | with unique ids, `set(id2name.values())` is exactly the set of object labels |
| Scene.KeepObjects | data-cleaning/filter_mislabel_soccer_in_baseball.py:184 | an object survives iff it was present and its id is not dropped; never longer |
| Scene.KeepRelations | data-cleaning/filter_mislabel_soccer_in_baseball.py:185-190 | a relationship survives iff it was present and neither endpoint id is dropped; never longer |
| Scene.KeepObjectsNothing | data-cleaning/drop_extra_fields.py:128-130 | filtering by ids no object has leaves the objects unchanged, which justifies the `if drop_ids` guard |
| Scene.KeepRelationsNothing | data-cleaning/drop_extra_fields.py:128-131 | filtering by ids no relationship references leaves the relationships unchanged |
| Scene.PruneCreatesNoDangling | data-cleaning/filter_mislabel_soccer_in_baseball.py:183-190 | pruning creates no dangling reference: kept endpoints that named an object still do, and a dangling-free image stays dangling-free |
| Scene.Triplets | data-cleaning/filter_mislabel_soccer_in_baseball.py:197-208 | there are never more triplets than relationships |
| Scene.TripletsSound | data-cleaning/harmonize_sport_context.py:254-265 | every triplet has non-empty subject and object names and is the triplet of a relationship whose two names are known |
| Scene.TripletsMatchRelations | data-cleaning/filter_mislabel_soccer_in_baseball.py:197-208 | the triplets correspond in order, one to one, to the relationships with both names non-empty |
| Scene.TripletsAllLabelled | data-cleaning/drop_extra_fields.py:81-93 | when every relationship has two known names there is one triplet per relationship |
| Scene.RebuildTriplets | data-cleaning/drop_extra_fields.py:81-93 | the rebuild loop computes exactly the triplets of the relationships |
| Scene.ShadowedIdToName | data-cleaning/harmonize_sport_context.py:165 | with two objects sharing an id, the map records only the later one's label |
| Scene.ShadowedLabel | data-cleaning/harmonize_sport_context.py:166 | so the earlier object's label is absent from the harmoniser's label set |
| Scene.KeepOther | data-cleaning/harmonize_sport_context.py:203 | dropping a shared id removes both objects that carry it |
| Scene.Annotation.constructor | data-cleaning/harmonize_sport_context.py:161-163 | an annotation holds the image id, objects, relationships and triplets it was loaded with |
| Scene.Annotation.SetView | data-cleaning/harmonize_sport_context.py:263-265 | writing back replaces the three lists, and the annotation then holds the given image |
| Scene.DetectFormat | data-cleaning/harmonize_sport_context.py:107-120 | "vg" iff a non-empty list whose first item has `objects` and `relationships`; "vg_wrapped" iff a dict with `annotations`; so an empty list is unknown; the filter and the field collapser use the same test |
| Standardize.CanonicalLabels | standardize_relationships_vi.py:22-29 | every synonym target is normal and is not itself a synonym key |
| Standardize.NormalizeObjectLabelSpec | standardize_relationships_vi.py:70-83 | a label is normalised, then mapped to its synonym target if it is a key and kept otherwise; the result is normal and not a key |
| Standardize.NormalizeObjectLabelIdempotent | standardize_relationships_vi.py:70-83 | normalising an object label twice equals normalising it once |
| Standardize.NormalizeObjectLabelPassThrough | standardize_relationships_vi.py:82-83 | a normal label that is not a synonym key is returned unchanged |
| Standardize.RewriteWear | standardize_relationships_vi.py:113-118 | "đeo" becomes "mặc" for a wear target, otherwise "mang" for a shoe target, otherwise stays "đeo" |
| Standardize.RewriteCatchAndInside | standardize_relationships_vi.py:120-131 | "bắt" with a "găng…" object becomes "đeo"; "trong" becomes "nằm trong" for "khung thành" (checked before the place rule), "ở trong" for other places, and stays otherwise |
| Standardize.RewriteOn | standardize_relationships_vi.py:124-127 | "trên"/"trên sân" becomes "nằm trên" iff the subject contains "bóng" and the object is a place target |
| Standardize.RewriteOther | standardize_relationships_vi.py:128-133 | any other predicate is returned unchanged |
| Standardize.RewriteRange | standardize_relationships_vi.py:113-133 | a rewrite returns its input or one of the six rule verbs |
| Standardize.ReplaceNormal | standardize_relationships_vi.py:110-111 | the replacement table maps a normal predicate to a normal one |
| Standardize.FixPredicateNormal | standardize_relationships_vi.py:86-133 | `fix_predicate` returns a normal string: the replaced, normalised predicate or a rule verb |
| Standardize.FixPredicateOnNormal | standardize_relationships_vi.py:106-108 | on an already normalised subject and object, `fix_predicate` is the replacement followed by the contextual rules |
| Standardize.DropImplausibleOnNormal | standardize_relationships_vi.py:143-145 | on normal strings, re-normalising inside `drop_implausible` changes nothing |
| Standardize.Finish | standardize_relationships_vi.py:171-181 | a triple is kept iff no pattern matches; a kept one keeps subject and object, keeps the predicate or spells "trên sân" as "nằm trên", and never has "trên sân" |
| Standardize.StandardizeTripletFinish | standardize_relationships_vi.py:167-172 | rejection is decided on the normalised subject, the rewritten predicate and the normalised object |
| Standardize.RewrittenPredicateNormal | standardize_relationships_vi.py:167-169 | the rewritten predicate is normal |
| Standardize.StandardizeTripletNormal | standardize_relationships_vi.py:152-181 | every kept triple consists of normal strings |
| Standardize.NearClothingRejected | standardize_relationships_vi.py:146-149 | (any one-line subject, "gần", a clothing label) is always rejected |
| Standardize.DeadPatterns | standardize_relationships_vi.py:51-52 | the glove-on-soccer-field and baseball-field-on-soccer-field patterns never match a rewritten predicate |
| Standardize.GloveOnSoccerFieldKept | standardize_relationships_vi.py:51 | (găng bóng chày, trên, sân bóng đá) is kept as (găng bóng chày, nằm trên, sân bóng đá) |
| Standardize.TennisBallOnPlayerRejected | standardize_relationships_vi.py:50 | (bóng tennis, trên, cầu thủ) is rejected |
| Standardize.GloveIsNotWorn | standardize_relationships_vi.py:113-122 | a "găng…" object is neither a wear nor a shoe target, so "đeo" with a glove stays "đeo" |
| Standardize.RewriteStable | standardize_relationships_vi.py:110-133 | rewriting an already rewritten predicate changes nothing |
| Standardize.LyingOnPlausible | standardize_relationships_vi.py:48-53 | no pattern rejects a triple whose predicate is "nằm trên" |
| Standardize.FinishIdempotent | standardize_relationships_vi.py:171-181 | re-standardising a kept triple's predicate keeps the same triple |
| Standardize.StandardizeTripletIdempotent | standardize_relationships_vi.py:152-181 | standardising a kept triple again returns it unchanged |
| Standardize.Pick | standardize_relationships_vi.py:193-195 | a missing or empty first key falls back to the second, then to "" |
| Standardize.ProcessSimpleTriplets | standardize_relationships_vi.py:184-200 | the loop emits, in order, the standardised triple of every item that is kept |
| Standardize.SimpleTripletNormal | standardize_relationships_vi.py:193-199 | a kept simple triple holds normal strings |
| Standardize.SimpleTripletsSound | standardize_relationships_vi.py:184-200 | every output triple comes from some input item and holds normal strings |
| Standardize.SimpleTripletsIdempotent | standardize_relationships_vi.py:184-200 | processing the written output again returns the same output |
| Standardize.Relabel | standardize_relationships_vi.py:218-222 | every object gets the one-element `names` list of its new label, in place and in order |
| Standardize.StdLabelIsName | standardize_relationships_vi.py:219-222 | the stored label is what the object's name now reads, and is normal and not a synonym key |
| Standardize.StdLabelsNormal | standardize_relationships_vi.py:217-222 | every name looked up by id after relabelling is normal and not a synonym key |
| Standardize.RelKeptStable | standardize_relationships_vi.py:226-237 | a relationship is kept iff its triple is; the kept one keeps both ids and is kept again with the same triple |
| Standardize.KeptFromInput | standardize_relationships_vi.py:226-237 | every kept relationship has the endpoints of an input relationship |
| Standardize.StandardizeImageTriplets | standardize_relationships_vi.py:224-246 | there is one triplet per kept relationship, and each matches its relationship's names and predicate |
| Standardize.StandardizeImageKeepsObjects | standardize_relationships_vi.py:218-222 | the image id, the number of objects, and every object's id and box are unchanged |
| Standardize.StandardizeImageKeepsRelations | standardize_relationships_vi.py:226-243 | there are no more kept relationships than input ones, and each has an input relationship's endpoints |
| Standardize.StandardizeImageIdempotent | standardize_relationships_vi.py:203-247 | standardising a standardised image changes nothing |
| Standardize.StandardizeObjects | standardize_relationships_vi.py:217-222 | the object loop relabels every object and builds the id-to-name map of the result |
| Standardize.StandardizeRelations | standardize_relationships_vi.py:224-237 | the relationship loop yields exactly the kept relationships and their triplets |
| Standardize.ProcessImage | standardize_relationships_vi.py:214-246 | one image is processed to its standardised form |
| Standardize.ProcessVgLike | standardize_relationships_vi.py:203-247 | every image of the list is standardised, in order |
| Standardize.DetectInputFormat | standardize_relationships_vi.py:250-263 | "vg" iff the first item of a non-empty list has objects and relationships; "simple" iff that item lacks objects or relationships and has all three triple keys; anything else, and an empty list, is unknown |
| Standardize.StandardizeFile | standardize_relationships_vi.py:282-306 | dispatches simple, vg and the wrapped-dict fallback; fails, with the unsupported-format error, exactly on an unknown format that is not a dict with "annotations"; reports the item count |
| Harmonize.ConvertFieldLoop | data-cleaning/harmonize_sport_context.py:172-175 | the coercion loop renames every "sân bóng đá" object, in order |
| Harmonize.ConvertFieldsKeeps | data-cleaning/harmonize_sport_context.py:172-174 | coercion keeps ids, boxes and order, and changes the label only of "sân bóng đá" objects |
| Harmonize.ConvertFieldsClears | data-cleaning/harmonize_sport_context.py:183-185 | after coercion no "sân bóng đá" object remains |
| Harmonize.ConvertFieldsChanges | data-cleaning/harmonize_sport_context.py:172-176 | coercion changes the objects iff some object is a "sân bóng đá" |
| Harmonize.FieldStageSpec | data-cleaning/harmonize_sport_context.py:170-190 | the bat rule wins over the tennis rule; either leaves no soccer field; a change implies a soccer field together with a bat or a tennis signal |
| Harmonize.FieldStageKeeps | data-cleaning/harmonize_sport_context.py:168-190 | step (0) keeps the number, ids and boxes of the objects |
| Harmonize.RelabelLoop | data-cleaning/harmonize_sport_context.py:218-222 | the relabel loop maps every object through the label map, in order |
| Harmonize.RelabelIsIdentity | data-cleaning/harmonize_sport_context.py:216-222 | a map holding no object label changes nothing, so the empty `RELABEL_MAP` never relabels |
| Harmonize.DropIdsEmpty | data-cleaning/harmonize_sport_context.py:195-197 | with unique ids, labels absent from the label set select no id to drop |
| Harmonize.DropIsDead | data-cleaning/harmonize_sport_context.py:193-215 | with unique ids, the soccer-dominant `drop` branch removes no object and no relationship |
| Harmonize.SoccerStageIdentity | data-cleaning/harmonize_sport_context.py:193-225 | with unique ids, step (1) leaves objects and relationships unchanged under every strategy |
| Harmonize.SoccerBallDominant | data-cleaning/harmonize_sport_context.py:48-57 | a soccer field with a soccer ball is soccer-dominant, and the bat is a baseball signal |
| Harmonize.DropIdsOfShadowed | data-cleaning/harmonize_sport_context.py:195-197 | the drop set is computed from each object's own label, so a shadowed baseball object's id is selected |
| Harmonize.DuplicateIdDropsField | data-cleaning/harmonize_sport_context.py:193-209 | a bat sharing its id with a soccer field is hidden from the context tests, and the `drop` step then removes the field with it |
| Harmonize.FallbackStageSpec | data-cleaning/harmonize_sport_context.py:228-237 | the fallback changes the objects iff its test holds on the recomputed labels, and then leaves no soccer field |
| Harmonize.FallbackStageKeeps | data-cleaning/harmonize_sport_context.py:228-237 | the fallback keeps the number, ids and boxes of the objects |
| Harmonize.FixWearPredicateSpec | data-cleaning/harmonize_sport_context.py:82-104 | "đeo" with clothing gives "mặc", with a "giày…" label gives "mang"; anything else gives the normalised predicate; the result is normal and fixing twice changes nothing |
| Harmonize.FixPredicatesLoop | data-cleaning/harmonize_sport_context.py:240-249 | the fix loop rewrites each relationship's predicate by its object's label |
| Harmonize.FixPredicatesSpec | data-cleaning/harmonize_sport_context.py:240-251 | the fix keeps the count, order and endpoints of the relationships, and is idempotent |
| Harmonize.FieldStep | data-cleaning/harmonize_sport_context.py:168-190 | computes step (0) |
| Harmonize.SoccerStep | data-cleaning/harmonize_sport_context.py:192-225 | computes step (1) |
| Harmonize.FallbackStep | data-cleaning/harmonize_sport_context.py:227-237 | computes step (2) |
| Harmonize.HarmonizeSteps | data-cleaning/harmonize_sport_context.py:161-262 | the staged pass keeps the image id and yields the harmonised image |
| Harmonize.HarmonizeOne | data-cleaning/harmonize_sport_context.py:143-266 | the annotation afterwards holds the harmonised image of what it held before |
| Harmonize.CoercedFieldIsFinal | data-cleaning/harmonize_sport_context.py:170-237 | once step (0) fires, later steps leave its objects alone and no soccer field remains |
| Harmonize.HarmonizeKeeps | data-cleaning/harmonize_sport_context.py:161-266 | with unique ids, the pass keeps the image id, the ids and boxes of all objects, and the relationships except the optional predicate fix |
| Harmonize.HarmonizeAll | data-cleaning/harmonize_sport_context.py:279-284 | every annotation of the list is harmonised |
| Harmonize.Harmonize | data-cleaning/harmonize_sport_context.py:269-288 | fails, with the unsupported-format error, exactly on an unknown format and then changes nothing; otherwise returns the document with every annotation harmonised |
| Mislabel.MaxAreaPos | data-cleaning/filter_mislabel_soccer_in_baseball.py:128 | the chosen representative is a position of the group |
| Mislabel.MaxAreaPosSpec | data-cleaning/filter_mislabel_soccer_in_baseball.py:128 | `max` by area picks a box of maximal area, the first one on ties |
| Mislabel.Absorbed | data-cleaning/filter_mislabel_soccer_in_baseball.py:122-126 | absorbed indices lie after the opener and are unused |
| Mislabel.Group | data-cleaning/filter_mislabel_soccer_in_baseball.py:121-126 | a group starts with its opener, lies within range, and its other members are later, unused indices |
| Mislabel.AbsorbedSpec | data-cleaning/filter_mislabel_soccer_in_baseball.py:122-126 | an index is absorbed iff it is later, unused and overlaps the opener with IoU at least the threshold |
| Mislabel.GroupSpec | data-cleaning/filter_mislabel_soccer_in_baseball.py:121-126 | the group is its opener plus exactly the later unused balls overlapping it enough |
| Mislabel.ScanTo | data-cleaning/filter_mislabel_soccer_in_baseball.py:118-131 | the scan keeps one flag per ball and only in-range groups |
| Mislabel.Groups | data-cleaning/filter_mislabel_soccer_in_baseball.py:116-132 | all groups are in range |
| Mislabel.Representatives | data-cleaning/filter_mislabel_soccer_in_baseball.py:128-131 | one kept ball per group, the representative of that group |
| Mislabel.CollectGroup | data-cleaning/filter_mislabel_soccer_in_baseball.py:121-126 | the inner loop builds exactly the group of the opener |
| Mislabel.MarkGroup | data-cleaning/filter_mislabel_soccer_in_baseball.py:129-130 | the marking loop sets exactly the group's flags |
| Mislabel.OpenGroupAt | data-cleaning/filter_mislabel_soccer_in_baseball.py:119-131 | opening a group at an unused ball advances the flags and appends its representative |
| Mislabel.VisitBall | data-cleaning/filter_mislabel_soccer_in_baseball.py:118-131 | one outer iteration advances the flags and kept list by one step of the scan |
| Mislabel.DedupeSoccerBalls | data-cleaning/filter_mislabel_soccer_in_baseball.py:110-132 | the de-duplication loop computes the specified kept list |
| Mislabel.ScanPartition | data-cleaning/filter_mislabel_soccer_in_baseball.py:116-132 | after visiting i balls every visited ball is used, each used ball lies in exactly one group and each unused ball in none, and at most i groups exist |
| Mislabel.GroupsPartition | data-cleaning/filter_mislabel_soccer_in_baseball.py:116-132 | every ball lies in exactly one group, and there are no more groups than balls |
| Mislabel.DedupeSpec | data-cleaning/filter_mislabel_soccer_in_baseball.py:110-132 | at most one ball is returned as is; otherwise one ball per group, of maximal area in its group, and never more than the input |
| Mislabel.DedupeFromInput | data-cleaning/filter_mislabel_soccer_in_baseball.py:110-132 | every kept ball is an input ball |
| Mislabel.DedupePairOverlap | data-cleaning/filter_mislabel_soccer_in_baseball.py:121-131 | two overlapping balls collapse to the larger, the first on ties |
| Mislabel.DedupePairApart | data-cleaning/filter_mislabel_soccer_in_baseball.py:121-131 | two balls below the threshold are both kept, in order |
| Mislabel.WithLabels | data-cleaning/filter_mislabel_soccer_in_baseball.py:163-164 | the soccer and baseball ball lists hold exactly the objects with those labels |
| Mislabel.DropIdsLoop | data-cleaning/filter_mislabel_soccer_in_baseball.py:170-180 | the drop loop collects the conflicting representatives under `require_overlap` with baseball balls, else all representatives |
| Mislabel.FindDropIds | data-cleaning/filter_mislabel_soccer_in_baseball.py:163-180 | the ids to drop in a baseball or tennis scene |
| Mislabel.FilterSteps | data-cleaning/filter_mislabel_soccer_in_baseball.py:151-194 | the pass keeps the image id and yields the filtered image |
| Mislabel.FilterOne | data-cleaning/filter_mislabel_soccer_in_baseball.py:135-194 | the annotation afterwards holds the filtered image of what it held before |
| Mislabel.FilterOutsideContext | data-cleaning/filter_mislabel_soccer_in_baseball.py:155-160 | outside a baseball or tennis scene, or with a soccer field, only the triplets are rebuilt |
| Mislabel.DroppedAreRepresentatives | data-cleaning/filter_mislabel_soccer_in_baseball.py:163-180 | every dropped id belongs to a de-duplication representative |
| Mislabel.OnlyRepresentativesDropped | data-cleaning/filter_mislabel_soccer_in_baseball.py:163-190 | with unique ids, every object that is not a representative, absorbed duplicates included, survives |
| Mislabel.RepresentativeDropped | data-cleaning/filter_mislabel_soccer_in_baseball.py:170-180 | in context, a representative is dropped iff overlap is not required, there is no baseball ball, or it overlaps one with IoU at least `iou_conflict` |
| Mislabel.FilterIntegrity | data-cleaning/filter_mislabel_soccer_in_baseball.py:183-208 | survivors keep their order, no kept relationship references a dropped id, no dangling reference is created, and the triplets are rebuilt |
| Mislabel.FilterAll | data-cleaning/filter_mislabel_soccer_in_baseball.py:216-226 | every annotation of the list is filtered |
| Mislabel.Process | data-cleaning/filter_mislabel_soccer_in_baseball.py:211-230 | fails, with the unsupported-format error, exactly on an unknown format and then changes nothing; otherwise returns the document with every annotation filtered |
| Fields.Best | data-cleaning/drop_extra_fields.py:49-79 | the representative is a member of the group |
| Fields.BestSpec | data-cleaning/drop_extra_fields.py:59-79 | "largest-area" picks maximal area, then the smallest id; "lowest-y" minimises (y, −area, id) lexicographically |
| Fields.ChooseRepresentative | data-cleaning/drop_extra_fields.py:49-79 | an empty group is rejected, a singleton returns its member, and the scan returns the lexicographic best |
| Fields.WithName | data-cleaning/drop_extra_fields.py:111-115 | a field group holds, in order, exactly the objects with that label |
| Fields.AddToGroup | data-cleaning/drop_extra_fields.py:112-115 | one grouping step keeps the map equal to the groups of the objects seen so far |
| Fields.GroupByField | data-cleaning/drop_extra_fields.py:109-115 | `by_field` has the field labels that occur as keys, each mapped to its group |
| Fields.AddOthers | data-cleaning/drop_extra_fields.py:124-126 | adds the ids of the group members whose id differs from the representative's |
| Fields.VisitField | data-cleaning/drop_extra_fields.py:118-126 | handling one label adds exactly that label's extra ids |
| Fields.CollectDropIds | data-cleaning/drop_extra_fields.py:117-126 | the drop loop collects exactly the extra ids, in any iteration order |
| Fields.FieldSteps | data-cleaning/drop_extra_fields.py:106-135 | the pass keeps the image id and yields the collapsed image |
| Fields.DropOne | data-cleaning/drop_extra_fields.py:95-136 | the annotation afterwards holds the collapsed image of what it held before |
| Fields.FieldImageKeeps | data-cleaning/drop_extra_fields.py:128-131 | objects and relationships are filtered by the extra ids, in order |
| Fields.RelationsKept | data-cleaning/drop_extra_fields.py:128-131 | only field objects are dropped, and a relationship survives iff neither endpoint is dropped, so dangling ones survive |
| Fields.ObjectsKept | data-cleaning/drop_extra_fields.py:117-131 | with unique ids, an object survives iff it is not an extra field box |
| Fields.GroupsShareId | data-cleaning/drop_extra_fields.py:109-131 | two surviving objects with the same field label share their id |
| Fields.Idempotent | data-cleaning/drop_extra_fields.py:95-136 | a second pass changes nothing |
| Fields.KeptOnePerField | data-cleaning/drop_extra_fields.py:109-131 | with unique ids, a field label keeps exactly its representative, or nothing if absent |
| Fields.AtMostOnePerField | data-cleaning/drop_extra_fields.py:95-136 | with unique ids, after the pass each field label has at most one object, its group representative, and ids stay unique |
| Fields.FieldTriplets | data-cleaning/drop_extra_fields.py:81-93 | no more triplets than relationships, and no more relationships than before; triplet names are non-empty |
| Fields.DropAll | data-cleaning/drop_extra_fields.py:149-154 | every annotation of the list is collapsed |
| Fields.DropExtraFields | data-cleaning/drop_extra_fields.py:146-155 | fails with an unsupported-format error exactly on an unknown format and then changes nothing; otherwise returns the document with every annotation collapsed |

## Left out

- JSON reading and writing, `argparse`, `Path` and the `print` logging of all four scripts are left out, along with the change counters that only feed the logging (`changed_count`, `fix_cnt`, `dropped_info`, `removed_rels`). They decide nothing.
- The input and output paths in the metadata returned by `standardize_file` are left out. So is the dict branch of its `num_items`: the result there is always a list.
- Unicode case folding: `lower()` is modelled as ASCII lower-casing. Vietnamese letters with diacritics are compared as written. Only lower-casing is limited to ASCII: `strip()` removes exactly the characters for which Python's `isspace()` holds, as `Text.IsSpace` lists them.
- IoU uses exact real division, not IEEE floating point.
- Missing keys are not modelled. Every object has an integer `object_id` and an integer box, and every relationship has two integer ids and a predicate. So the `10**12` default for a missing id in `_choose_representative` never applies, and neither does the crash on missing geometry. `names` may be empty; it then reads as "".
- A simple triplet dict is modelled by its string-valued entries only.
- Standardize.ProcessVgLike: builds new images and does not model that `process_vg_like` also rewrites `names` and `predicate` inside the input dicts it is given.
- Standardize.StandardizeImageKeepsRelations: states that each kept relationship has the endpoints of an input one, not that the kept list is an ordered sub-list of the input. The order holds by the definition of the kept list, but no lemma states it.
- Harmonize.Harmonize: requires that no annotation dict occurs twice in the document, as JSON decoding guarantees.
- Harmonize.HarmonizeAll: requires distinct annotation dicts, as above.
- Mislabel.Process: requires distinct annotation dicts, as above.
- Mislabel.FilterAll: requires distinct annotation dicts, as above.
- Fields.DropExtraFields: requires distinct annotation dicts, as above.
- Fields.DropAll: requires distinct annotation dicts, as above.
- Fields.DropExtraFields: field labels are modelled as a set of strings, and the policy as a string where every value other than "lowest-y" means "largest-area", as in the source.
- Fields.CollectDropIds: the iteration order of `by_field` is not modelled. The loop takes the labels in any order, which cannot change the resulting set.
- Harmonize.HarmonizeKeeps: assumes unique object ids. With a shared id the `drop` step can remove objects, as DuplicateIdDropsField shows.
