/**
 * The media update route: validation of the posted body, and the rows it
 * writes for the train tags of each media.
 */
module Update {
  import opened Wrappers
  import opened Json

  const MaxTagLength := 50
  const MaxTrainTags := 10

  // ---------------------------------------------------------------------------
  // Validation of the untyped body
  // ---------------------------------------------------------------------------

  /** A tag is a non-empty string of at most 50 characters. */
  predicate ValidateTag(tag: Json): (ok: bool)
    ensures ok <==> tag.Str? && WellFormedTags([tag.s])
  {
    if tag.Str? then
      assert [tag.s][0] == tag.s;
      |tag.s| > 0 && |tag.s| <= MaxTagLength
    else
      false
  }

  /** A train is an array of at most 10 valid tags. */
  predicate ValidateTrain(train: Json): (ok: bool)
    ensures ok <==> exists tags: seq<string> | |tags| <= MaxTrainTags && WellFormedTags(tags) :: train == EncodeTags(tags)
  {
    var ok := train.Arr? && |train.items| <= MaxTrainTags
              && forall i | 0 <= i < |train.items| :: ValidateTag(train.items[i]);
    if ok then
      EncodeDecodeTags(train);
      var tags := DecodeTags(train);
      assert |tags| <= MaxTrainTags && WellFormedTags(tags) && train == EncodeTags(tags);
      true
    else
      false
  }

  /** `Array.isArray(v) && v.every(valid)`, for an optional property value. */
  predicate IsArrayOf(v: Option<Json>, valid: Json -> bool) {
    v.Some? && v.value.Arr? && forall i | 0 <= i < |v.value.items| :: valid(v.value.items[i])
  }

  /** The check applied to every element of the body. */
  predicate ValidateItem(item: Json): (ok: bool)
    ensures ok ==> item.Obj? && "id" in item.fields && "contextTags" in item.fields && "trainTags" in item.fields
  {
    IsNonNullObject(item)
    && Get(item, "id").Some? && Get(item, "id").value.Number?
    && IsArrayOf(Get(item, "contextTags"), ValidateTag)
    && IsArrayOf(Get(item, "trainTags"), ValidateTrain)
  }

  /** The body itself when it is an array of valid items, otherwise None (`null`). */
  function ValidatedBody(body: Json): (r: Option<Json>)
    ensures r.Some? ==> r.value == body
  {
    if !body.Arr? then None
    else if !(forall i | 0 <= i < |body.items| :: ValidateItem(body.items[i])) then None
    else Some(body)
  }

  // ---------------------------------------------------------------------------
  // The typed view the handler casts a validated body to
  // ---------------------------------------------------------------------------

  datatype UpdateItem = UpdateItem(id: real, contextTags: seq<string>, trainTags: seq<seq<string>>)

  /** The typed items satisfy what the validators demand of their tags and trains. */
  predicate WellFormedItems(items: seq<UpdateItem>) {
    forall i | 0 <= i < |items| :: WellFormedItem(items[i])
  }

  predicate WellFormedTags(tags: seq<string>) {
    forall j | 0 <= j < |tags| :: 0 < |tags[j]| <= MaxTagLength
  }

  predicate WellFormedItem(item: UpdateItem) {
    && WellFormedTags(item.contextTags)
    && forall k | 0 <= k < |item.trainTags| ::
         |item.trainTags[k]| <= MaxTrainTags && WellFormedTags(item.trainTags[k])
  }

  function EncodeTags(tags: seq<string>): (v: Json)
    ensures v.Arr? && |v.items| == |tags|
    ensures forall j | 0 <= j < |tags| :: v.items[j] == Str(tags[j])
  {
    Arr(seq(|tags|, j requires 0 <= j < |tags| => Str(tags[j])))
  }

  function EncodeTrains(trains: seq<seq<string>>): (v: Json)
    ensures v.Arr? && |v.items| == |trains|
    ensures forall k | 0 <= k < |trains| :: v.items[k] == EncodeTags(trains[k])
  {
    Arr(seq(|trains|, k requires 0 <= k < |trains| => EncodeTags(trains[k])))
  }

  function EncodeItem(item: UpdateItem): Json {
    Obj(map["id" := Number(item.id),
            "contextTags" := EncodeTags(item.contextTags),
            "trainTags" := EncodeTrains(item.trainTags)])
  }

  /** The JSON a client sends for a list of typed items. */
  function EncodeItems(items: seq<UpdateItem>): (v: Json)
    ensures v.Arr? && |v.items| == |items|
    ensures forall i | 0 <= i < |items| :: v.items[i] == EncodeItem(items[i])
  {
    Arr(seq(|items|, i requires 0 <= i < |items| => EncodeItem(items[i])))
  }

  function DecodeTags(v: Json): seq<string>
    requires v.Arr? && forall j | 0 <= j < |v.items| :: ValidateTag(v.items[j])
  {
    seq(|v.items|, j requires 0 <= j < |v.items| && ValidateTag(v.items[j]) => v.items[j].s)
  }

  function DecodeTrains(v: Json): seq<seq<string>>
    requires v.Arr? && forall k | 0 <= k < |v.items| :: ValidateTrain(v.items[k])
  {
    seq(|v.items|, k requires 0 <= k < |v.items| && ValidateTrain(v.items[k]) => DecodeTags(v.items[k]))
  }

  function DecodeItem(v: Json): UpdateItem
    requires ValidateItem(v)
  {
    UpdateItem(Get(v, "id").value.n,
               DecodeTags(Get(v, "contextTags").value),
               DecodeTrains(Get(v, "trainTags").value))
  }

  /** The `as { id; contextTags; trainTags }[]` cast of a validated body. */
  function DecodeItems(body: Json): (items: seq<UpdateItem>)
    requires ValidatedBody(body).Some?
    ensures WellFormedItems(items)
    ensures |items| == |body.items|
    ensures forall i | 0 <= i < |items| :: ReadsAs(body.items[i], items[i])
  {
    assert forall i | 0 <= i < |body.items| :: ReadsAs(body.items[i], DecodeItem(body.items[i])) by {
      forall i | 0 <= i < |body.items|
        ensures ReadsAs(body.items[i], DecodeItem(body.items[i]))
      {
        DecodeItemFields(body.items[i]);
      }
    }
    seq(|body.items|, i requires 0 <= i < |body.items| => DecodeItem(body.items[i]))
  }

  /** The item's three fields hold the typed item's id, context tags and train tags. */
  predicate ReadsAs(v: Json, item: UpdateItem) {
    && Get(v, "id") == Some(Number(item.id))
    && Get(v, "contextTags") == Some(EncodeTags(item.contextTags))
    && Get(v, "trainTags") == Some(EncodeTrains(item.trainTags))
  }

  /** The cast reads each field of a valid item as it is. */
  lemma DecodeItemFields(v: Json)
    requires ValidateItem(v)
    ensures ReadsAs(v, DecodeItem(v))
  {
    EncodeDecodeTags(Get(v, "contextTags").value);
    EncodeDecodeTrains(Get(v, "trainTags").value);
  }

  /** An array of valid tags is the encoding of the strings it holds. */
  lemma EncodeDecodeTags(v: Json)
    requires v.Arr? && forall j | 0 <= j < |v.items| :: ValidateTag(v.items[j])
    ensures EncodeTags(DecodeTags(v)) == v
  {
    assert EncodeTags(DecodeTags(v)).items == v.items;
  }

  /** An array of valid trains is the encoding of the tag lists it holds. */
  lemma EncodeDecodeTrains(v: Json)
    requires v.Arr? && forall k | 0 <= k < |v.items| :: ValidateTrain(v.items[k])
    ensures EncodeTrains(DecodeTrains(v)) == v
  {
    forall k | 0 <= k < |v.items| ensures EncodeTags(DecodeTags(v.items[k])) == v.items[k] {
      EncodeDecodeTags(v.items[k]);
    }
    assert EncodeTrains(DecodeTrains(v)).items == v.items;
  }

  // ---------------------------------------------------------------------------
  // Train tag rows
  // ---------------------------------------------------------------------------

  /** The `{ trainId, tag }` row stored for one tag of one train. */
  datatype TrainTagRow = TrainTagRow(trainId: int, tag: string)

  /** The rows of one train, all carrying the train's index. */
  function TrainRows(trainId: nat, train: seq<string>): (rows: seq<TrainTagRow>)
    ensures |rows| == |train|
    ensures forall j | 0 <= j < |train| :: rows[j] == TrainTagRow(trainId, train[j])
  {
    seq(|train|, j requires 0 <= j < |train| => TrainTagRow(trainId, train[j]))
  }

  /** `trainTags.flatMap((train, trainId) => train.map((tag) => ({ trainId, tag })))`. */
  function FlattenTrainTags(trains: seq<seq<string>>): (rows: seq<TrainTagRow>)
    ensures |rows| == TotalTags(trains)
  {
    if trains == [] then []
    else FlattenTrainTags(trains[..|trains| - 1]) + TrainRows(|trains| - 1, trains[|trains| - 1])
  }

  /** The number of tags over all trains. */
  function TotalTags(trains: seq<seq<string>>): nat
  {
    if trains == [] then 0 else TotalTags(trains[..|trains| - 1]) + |trains[|trains| - 1]|
  }

  // ---------------------------------------------------------------------------
  // The POST handler's decision
  // ---------------------------------------------------------------------------

  /** The database writes for one media: connect its context tags, replace its train tag rows. */
  datatype MediaUpdate = MediaUpdate(mediaId: real, connectContextTags: seq<string>, replaceTrainTags: seq<TrainTagRow>)

  datatype Response = BadRequest | NoContent(updates: seq<MediaUpdate>)

  /**
   * The handler: a 400 for a rejected body, otherwise one update per item,
   * in body order, written in one transaction and answered with a 204.
   */
  function Post(body: Json): (resp: Response)
    ensures resp.BadRequest? <==> ValidatedBody(body).None?
    ensures resp.NoContent? ==>
      var items := DecodeItems(body);
      && |resp.updates| == |items|
      && forall i | 0 <= i < |items| ::
           resp.updates[i] == MediaUpdate(items[i].id, items[i].contextTags, FlattenTrainTags(items[i].trainTags))
  {
    match ValidatedBody(body)
    case None => BadRequest
    case Some(valid) =>
      var items := DecodeItems(valid);
      NoContent(seq(|items|, i requires 0 <= i < |items| =>
        MediaUpdate(items[i].id, items[i].contextTags, FlattenTrainTags(items[i].trainTags))))
  }

  // ---------------------------------------------------------------------------
  // Properties of the validators
  // ---------------------------------------------------------------------------

  /** The boundaries of `validateTag`: "" and 51 characters are refused, 1 and 50 accepted, non-strings refused. */
  lemma TagBoundaries()
    ensures !ValidateTag(Str(""))
    ensures ValidateTag(Str("a"))
    ensures ValidateTag(Str(seq(50, _ => 'x')))
    ensures !ValidateTag(Str(seq(51, _ => 'x')))
    ensures !ValidateTag(Null) && !ValidateTag(Number(1.0)) && !ValidateTag(Arr([Str("a")]))
  {
  }

  /** The boundaries of `validateTrain`: the empty train passes, eleven tags do not. */
  lemma TrainBoundaries()
    ensures ValidateTrain(Arr([]))
    ensures ValidateTrain(Arr(seq(10, _ => Str("a"))))
    ensures !ValidateTrain(Arr(seq(11, _ => Str("a"))))
    ensures !ValidateTrain(Arr([Str("")]))
    ensures !ValidateTrain(Str("a"))
  {
    assert !ValidateTag(Arr([Str("")]).items[0]);
  }

  /** Anything but an array is refused, and the empty array is accepted. */
  lemma BodyShape(body: Json)
    ensures !body.Arr? ==> ValidatedBody(body) == None
    ensures ValidatedBody(Arr([])) == Some(Arr([]))
  {
  }

  /** One bad element rejects the whole body; an array element fails at its missing numeric id. */
  lemma BodyRejectsBadItem(body: Json, i: nat)
    requires body.Arr? && i < |body.items|
    requires !ValidateItem(body.items[i])
    ensures ValidatedBody(body) == None
  {
  }

  lemma ArraysAndPrimitivesAreNotItems(v: Json)
    requires !v.Obj?
    ensures !ValidateItem(v)
  {
  }

  /** Members other than the three checked ones are ignored, and survive, since the body is returned as is. */
  lemma ExtraFieldsKept()
    ensures var item := Obj(map["id" := Number(3.0), "contextTags" := Arr([]), "trainTags" := Arr([]), "note" := Null]);
      ValidatedBody(Arr([item])) == Some(Arr([item]))
  {
    var item := Obj(map["id" := Number(3.0), "contextTags" := Arr([]), "trainTags" := Arr([]), "note" := Null]);
    assert Get(item, "id") == Some(Number(3.0));
    assert Get(item, "contextTags") == Some(Arr([]));
    assert Get(item, "trainTags") == Some(Arr([]));
  }

  lemma EncodeTagsValid(tags: seq<string>)
    ensures IsArrayOf(Some(EncodeTags(tags)), ValidateTag) <==> WellFormedTags(tags)
  {
    var v := EncodeTags(tags);
    if WellFormedTags(tags) {
      assert forall j | 0 <= j < |v.items| :: ValidateTag(v.items[j]);
    } else {
      var j :| 0 <= j < |tags| && !(0 < |tags[j]| <= MaxTagLength);
      assert !ValidateTag(v.items[j]);
    }
  }

  lemma EncodeTrainsValid(trains: seq<seq<string>>)
    ensures IsArrayOf(Some(EncodeTrains(trains)), ValidateTrain)
      <==> forall k | 0 <= k < |trains| :: |trains[k]| <= MaxTrainTags && WellFormedTags(trains[k])
  {
    var v := EncodeTrains(trains);
    forall k | 0 <= k < |trains|
      ensures ValidateTrain(v.items[k]) <==> |trains[k]| <= MaxTrainTags && WellFormedTags(trains[k])
    {
      EncodeTagsValid(trains[k]);
    }
  }

  lemma EncodeItemValid(item: UpdateItem)
    ensures ValidateItem(EncodeItem(item)) <==> WellFormedItem(item)
  {
    var v := EncodeItem(item);
    assert Get(v, "id") == Some(Number(item.id));
    assert Get(v, "contextTags") == Some(EncodeTags(item.contextTags));
    assert Get(v, "trainTags") == Some(EncodeTrains(item.trainTags));
    EncodeTagsValid(item.contextTags);
    EncodeTrainsValid(item.trainTags);
  }

  /** A client's typed items pass validation exactly when their tags and trains are within the limits. */
  lemma EncodedItemsAccepted(items: seq<UpdateItem>)
    ensures ValidatedBody(EncodeItems(items)).Some? <==> WellFormedItems(items)
  {
    var v := EncodeItems(items);
    forall i | 0 <= i < |items|
      ensures ValidateItem(v.items[i]) <==> WellFormedItem(items[i])
    {
      EncodeItemValid(items[i]);
    }
  }

  /** The cast of an accepted body gives back the typed items sent. */
  lemma DecodeEncode(items: seq<UpdateItem>)
    requires WellFormedItems(items)
    ensures ValidatedBody(EncodeItems(items)).Some?
    ensures DecodeItems(EncodeItems(items)) == items
  {
    EncodedItemsAccepted(items);
    var v := EncodeItems(items);
    forall i | 0 <= i < |items| ensures DecodeItem(v.items[i]) == items[i] {
      var e := v.items[i];
      assert Get(e, "id") == Some(Number(items[i].id));
      assert Get(e, "contextTags") == Some(EncodeTags(items[i].contextTags));
      assert Get(e, "trainTags") == Some(EncodeTrains(items[i].trainTags));
      assert DecodeTags(EncodeTags(items[i].contextTags)) == items[i].contextTags;
      forall k | 0 <= k < |items[i].trainTags|
        ensures DecodeTags(EncodeTags(items[i].trainTags[k])) == items[i].trainTags[k]
      {
      }
      assert DecodeTrains(EncodeTrains(items[i].trainTags)) == items[i].trainTags;
    }
  }

  // ---------------------------------------------------------------------------
  // Properties of the flattened rows
  // ---------------------------------------------------------------------------

  /**
   * Every tag of train k appears with `trainId = k`, at offset j after the rows
   * of the trains before it: trains in order, tags in order within a train.
   */
  lemma {:induction false} FlattenAt(trains: seq<seq<string>>, k: nat, j: nat)
    requires k < |trains| && j < |trains[k]|
    ensures TotalTags(trains[..k]) + j < |FlattenTrainTags(trains)|
    ensures FlattenTrainTags(trains)[TotalTags(trains[..k]) + j] == TrainTagRow(k, trains[k][j])
  {
    var n := |trains| - 1;
    var init := trains[..n];
    if k == n {
      assert trains[..k] == init;
    } else {
      assert init[..k] == trains[..k];
      FlattenAt(init, k, j);
    }
  }

  /** Every row names an existing, hence non-empty, train and one of its tags. */
  lemma {:induction false} FlattenRowsFromTrains(trains: seq<seq<string>>, r: TrainTagRow)
    requires r in FlattenTrainTags(trains)
    ensures 0 <= r.trainId < |trains|
    ensures r.tag in trains[r.trainId]
  {
    var n := |trains| - 1;
    if r !in TrainRows(n, trains[n]) {
      FlattenRowsFromTrains(trains[..n], r);
    }
  }

  /** An empty train adds no row. */
  lemma FlattenEmptyTrain(trains: seq<seq<string>>)
    ensures FlattenTrainTags(trains + [[]]) == FlattenTrainTags(trains)
  {
    assert (trains + [[]])[..|trains|] == trains;
  }
}
