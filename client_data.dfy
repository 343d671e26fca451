/**
 * The data sent to the client: each stored media with its tag rows regrouped,
 * split into images and videos.
 */
module ClientData {
  import opened Update

  /** A `{ tag }` row of a media's context tags, as the query selects it. */
  datatype ContextTagRow = ContextTagRow(tag: string)

  /** A media as the query returns it, with its tag rows in the order the database gives them. */
  datatype MediaRecord = MediaRecord(id: int, path: string, isVideo: bool,
                                     contextTags: seq<ContextTagRow>, trainTags: seq<TrainTagRow>)

  /** The client's `Media`: context tags as strings, train tags grouped per train. */
  datatype ClientMedia = ClientMedia(id: int, path: string, contextTags: seq<string>,
                                     trainTags: map<int, seq<string>>)

  // ---------------------------------------------------------------------------
  // Specification of the regrouping
  // ---------------------------------------------------------------------------

  /** The train ids that occur in the rows. */
  function TrainIds(rows: seq<TrainTagRow>): set<int> {
    set i | 0 <= i < |rows| :: rows[i].trainId
  }

  /** The tags of the rows that carry train id k, in row order. */
  function TagsOf(rows: seq<TrainTagRow>, k: int): seq<string> {
    if rows == [] then []
    else TagsOf(rows[..|rows| - 1], k) + (if rows[|rows| - 1].trainId == k then [rows[|rows| - 1].tag] else [])
  }

  /** One group per train id that occurs, holding that train's tags. */
  function Grouped(rows: seq<TrainTagRow>): (g: map<int, seq<string>>)
    ensures forall i | 0 <= i < |rows| :: rows[i].trainId in g
    ensures forall k | k in g :: g[k] != []
  {
    assert forall k | k in TrainIds(rows) :: TagsOf(rows, k) != [] by {
      forall k | k in TrainIds(rows) ensures TagsOf(rows, k) != [] {
        TagsOfPresent(rows, k);
      }
    }
    map k | k in TrainIds(rows) :: TagsOf(rows, k)
  }

  /** `media.contextTags.map(tag => tag.tag)`. */
  function ContextTagNames(rows: seq<ContextTagRow>): (tags: seq<string>)
    ensures |tags| == |rows|
    ensures forall i | 0 <= i < |rows| :: tags[i] == rows[i].tag
  {
    seq(|rows|, i requires 0 <= i < |rows| => rows[i].tag)
  }

  /** What the client receives for one media. */
  function ClientView(m: MediaRecord): (c: ClientMedia)
    ensures c.id == m.id && c.path == m.path && |c.contextTags| == |m.contextTags|
    ensures forall k | k in c.trainTags :: c.trainTags[k] == TagsOf(m.trainTags, k)
  {
    ClientMedia(m.id, m.path, ContextTagNames(m.contextTags), Grouped(m.trainTags))
  }

  /** The client views of the medias whose `isVideo` equals `videos`, in order. */
  function Select(medias: seq<MediaRecord>, videos: bool): (selected: seq<ClientMedia>)
    ensures |selected| <= |medias|
  {
    if medias == [] then []
    else Select(medias[..|medias| - 1], videos)
         + (if medias[|medias| - 1].isVideo == videos then [ClientView(medias[|medias| - 1])] else [])
  }

  // ---------------------------------------------------------------------------
  // The code
  // ---------------------------------------------------------------------------

  /**
   * The `reduce` over a media's train tag rows: an absent key gets an empty
   * list, then the row's tag is pushed onto its train's list.
   */
  method GroupTrainTags(rows: seq<TrainTagRow>) returns (acc: map<int, seq<string>>)
    ensures forall k :: k in acc <==> exists i | 0 <= i < |rows| :: rows[i].trainId == k
    ensures forall k | k in acc :: acc[k] == TagsOf(rows, k)
    ensures acc == Grouped(rows)
  {
    acc := map[];
    for i := 0 to |rows|
      invariant acc.Keys == TrainIds(rows[..i])
      invariant forall k | k in acc :: acc[k] == TagsOf(rows[..i], k)
    {
      var row := rows[i];
      assert rows[..i + 1][..i] == rows[..i];
      if row.trainId !in acc {
        acc := acc[row.trainId := []];
      }
      acc := acc[row.trainId := acc[row.trainId] + [row.tag]];
      assert TrainIds(rows[..i + 1]) == TrainIds(rows[..i]) + {row.trainId};
      forall k | k in acc ensures acc[k] == TagsOf(rows[..i + 1], k) {
        if k !in TrainIds(rows[..i]) {
          TagsOfAbsent(rows[..i], k);
        }
      }
    }
    assert rows[..|rows|] == rows;
  }

  /** One media's client data. */
  method ToClientMedia(m: MediaRecord) returns (data: ClientMedia)
    ensures data == ClientView(m)
    ensures data.id == m.id && data.path == m.path
  {
    var trainTags := GroupTrainTags(m.trainTags);
    data := ClientMedia(m.id, m.path, ContextTagNames(m.contextTags), trainTags);
  }

  /** `getClientData`'s loop: each media's data is pushed onto `videos` or `images`. */
  method GetClientData(medias: seq<MediaRecord>) returns (images: seq<ClientMedia>, videos: seq<ClientMedia>)
    ensures images == Select(medias, false)
    ensures videos == Select(medias, true)
    ensures |images| + |videos| == |medias|
  {
    images, videos := [], [];
    for i := 0 to |medias|
      invariant images == Select(medias[..i], false)
      invariant videos == Select(medias[..i], true)
    {
      assert medias[..i + 1][..i] == medias[..i];
      var data := ToClientMedia(medias[i]);
      if medias[i].isVideo {
        videos := videos + [data];
      } else {
        images := images + [data];
      }
    }
    assert medias[..|medias|] == medias;
    SelectPartition(medias);
  }

  // ---------------------------------------------------------------------------
  // Properties of the regrouping
  // ---------------------------------------------------------------------------

  lemma {:induction false} TagsOfAbsent(rows: seq<TrainTagRow>, k: int)
    requires k !in TrainIds(rows)
    ensures TagsOf(rows, k) == []
  {
    if rows != [] {
      var init := rows[..|rows| - 1];
      assert TrainIds(init) <= TrainIds(rows);
      TagsOfAbsent(init, k);
    }
  }

  /** A key is present exactly when its group is non-empty. */
  lemma {:induction false} TagsOfPresent(rows: seq<TrainTagRow>, k: int)
    ensures k in TrainIds(rows) <==> TagsOf(rows, k) != []
  {
    if rows != [] {
      var init := rows[..|rows| - 1];
      assert TrainIds(rows) == TrainIds(init) + {rows[|rows| - 1].trainId};
      TagsOfPresent(init, k);
    } else if k in TrainIds(rows) {
      assert false;
    }
  }

  /** Grouping distributes over concatenation of row lists: row order is kept inside each group. */
  lemma {:induction false} TagsOfAppend(a: seq<TrainTagRow>, b: seq<TrainTagRow>, k: int)
    ensures TagsOf(a + b, k) == TagsOf(a, k) + TagsOf(b, k)
  {
    if b != [] {
      assert (a + b)[..|a + b| - 1] == a + b[..|b| - 1];
      TagsOfAppend(a, b[..|b| - 1], k);
    } else {
      assert a + b == a;
    }
  }

  /** Each row is counted in exactly one group: grouping loses and duplicates no tag. */
  lemma {:induction false} TagsOfTotal(rows: seq<TrainTagRow>)
    ensures TotalGrouped(Grouped(rows)) == |rows|
  {
    if rows == [] {
      assert Grouped(rows) == map[];
    } else {
      var init := rows[..|rows| - 1];
      var r := rows[|rows| - 1];
      TagsOfTotal(init);
      var before := Grouped(init);
      GroupedSnoc(rows);
      TotalGroupedUpdate(before, r.trainId, TagsOf(init, r.trainId) + [r.tag]);
      if r.trainId !in before {
        TagsOfAbsent(init, r.trainId);
      }
    }
  }

  /** Appending a row appends its tag to its train's group. */
  lemma GroupedSnoc(rows: seq<TrainTagRow>)
    requires rows != []
    ensures var init, r := rows[..|rows| - 1], rows[|rows| - 1];
      Grouped(rows) == Grouped(init)[r.trainId := TagsOf(init, r.trainId) + [r.tag]]
  {
    var init, r := rows[..|rows| - 1], rows[|rows| - 1];
    var g := Grouped(init)[r.trainId := TagsOf(init, r.trainId) + [r.tag]];
    assert TrainIds(rows) == TrainIds(init) + {r.trainId};
    assert Grouped(rows).Keys == g.Keys;
    forall k | k in g ensures Grouped(rows)[k] == g[k] {
    }
  }

  /** The number of tags held by all groups of a map. */
  ghost function TotalGrouped(m: map<int, seq<string>>): nat
    decreases |m|
  {
    if |m| == 0 then 0
    else
      var k := SomeKey(m);
      assert |m - {k}| < |m| by { assert (m - {k}).Keys == m.Keys - {k}; }
      |m[k]| + TotalGrouped(m - {k})
  }

  ghost function SomeKey(m: map<int, seq<string>>): (k: int)
    requires |m| > 0
    ensures k in m
  {
    assert m.Keys != {} by { assert |m.Keys| == |m|; }
    HasKey(m);
    var k :| k in m; k
  }

  lemma HasKey(m: map<int, seq<string>>)
    requires m.Keys != {}
    ensures exists k :: k in m
  {
    if forall k :: k !in m {
      assert false;
    }
  }

  lemma {:induction false} TotalGroupedRemove(m: map<int, seq<string>>, k: int)
    requires k in m
    ensures TotalGrouped(m) == |m[k]| + TotalGrouped(m - {k})
    decreases |m|
  {
    var j := SomeKey(m);
    if j != k {
      assert (m - {j}).Keys == m.Keys - {j};
      assert (m - {k}).Keys == m.Keys - {k};
      TotalGroupedRemove(m - {j}, k);
      TotalGroupedRemove(m - {k}, j);
      assert m - {j} - {k} == m - {k} - {j};
    }
  }

  lemma TotalGroupedUpdate(m: map<int, seq<string>>, k: int, v: seq<string>)
    ensures TotalGrouped(m[k := v]) == TotalGrouped(m) - (if k in m then |m[k]| else 0) + |v|
  {
    var m' := m[k := v];
    TotalGroupedRemove(m', k);
    assert m' - {k} == m - {k};
    if k in m {
      TotalGroupedRemove(m, k);
    } else {
      assert m - {k} == m;
    }
  }

  /** The rows of one train form exactly that train's group. */
  lemma TagsOfTrainRows(n: nat, train: seq<string>, k: int)
    ensures TagsOf(TrainRows(n, train), k) == if k == n then train else []
  {
    if k != n {
      assert k !in TrainIds(TrainRows(n, train));
      TagsOfAbsent(TrainRows(n, train), k);
    } else {
      TagsOfTrain(TrainRows(n, train), train, n);
    }
  }

  lemma {:induction false} TagsOfTrain(rows: seq<TrainTagRow>, train: seq<string>, n: int)
    requires |rows| == |train|
    requires forall j | 0 <= j < |rows| :: rows[j] == TrainTagRow(n, train[j])
    ensures TagsOf(rows, n) == train
  {
    if rows != [] {
      TagsOfTrain(rows[..|rows| - 1], train[..|train| - 1], n);
    }
  }

  /** Regrouping the rows written for a list of trains gives each train back at its index. */
  lemma {:induction false} TagsOfFlatten(trains: seq<seq<string>>, k: int)
    ensures TagsOf(FlattenTrainTags(trains), k) == if 0 <= k < |trains| then trains[k] else []
  {
    if trains != [] {
      var n := |trains| - 1;
      TagsOfAppend(FlattenTrainTags(trains[..n]), TrainRows(n, trains[n]), k);
      TagsOfFlatten(trains[..n], k);
      TagsOfTrainRows(n, trains[n], k);
    }
  }

  /**
   * The round trip through the database: when the rows written by the update
   * route come back in insertion order, the client sees every non-empty train
   * at its original index, and no key for an empty train.
   */
  lemma GroupedFlattenRoundTrip(trains: seq<seq<string>>)
    ensures Grouped(FlattenTrainTags(trains)) == map k | 0 <= k < |trains| && trains[k] != [] :: trains[k]
  {
    var rows := FlattenTrainTags(trains);
    forall k ensures k in TrainIds(rows) <==> 0 <= k < |trains| && trains[k] != [] {
      TagsOfPresent(rows, k);
      TagsOfFlatten(trains, k);
    }
    forall k | k in TrainIds(rows) ensures TagsOf(rows, k) == trains[k] {
      TagsOfFlatten(trains, k);
    }
  }

  // ---------------------------------------------------------------------------
  // Properties of the image / video split
  // ---------------------------------------------------------------------------

  /** Every media lands in exactly one of the two lists. */
  lemma {:induction false} SelectPartition(medias: seq<MediaRecord>)
    ensures |Select(medias, true)| + |Select(medias, false)| == |medias|
  {
    if medias != [] {
      SelectPartition(medias[..|medias| - 1]);
    }
  }

  /** The split keeps relative order: it distributes over concatenation. */
  lemma {:induction false} SelectAppend(a: seq<MediaRecord>, b: seq<MediaRecord>, videos: bool)
    ensures Select(a + b, videos) == Select(a, videos) + Select(b, videos)
  {
    if b != [] {
      assert (a + b)[..|a + b| - 1] == a + b[..|b| - 1];
      SelectAppend(a, b[..|b| - 1], videos);
    } else {
      assert a + b == a;
    }
  }

  /** A media's view is in the list its `isVideo` flag selects, and only there. */
  lemma {:induction false} SelectMember(medias: seq<MediaRecord>, i: nat)
    requires i < |medias|
    ensures ClientView(medias[i]) in Select(medias, medias[i].isVideo)
  {
    var n := |medias| - 1;
    if i < n {
      SelectMember(medias[..n], i);
    }
  }

  /** Each listed view comes from a media with the matching flag. */
  lemma {:induction false} SelectSource(medias: seq<MediaRecord>, videos: bool, c: ClientMedia)
    requires c in Select(medias, videos)
    ensures exists i | 0 <= i < |medias| :: medias[i].isVideo == videos && c == ClientView(medias[i])
  {
    var n := |medias| - 1;
    if c in Select(medias[..n], videos) {
      SelectSource(medias[..n], videos, c);
      var i :| 0 <= i < n && medias[..n][i].isVideo == videos && c == ClientView(medias[..n][i]);
      assert medias[i] == medias[..n][i];
    } else {
      assert medias[n].isVideo == videos && c == ClientView(medias[n]);
    }
  }
}
