/**
 * The tag vocabularies read as implication graphs: a tag named a has an
 * edge to each name listed in its `implies`. Facts about the two lists in
 * the constants: every edge target names a tag of the same list, no chain
 * of implications returns to its start, and the chains the hierarchy is
 * designed around exist.
 */
module Vocabulary {
  import opened Numerals
  import opened Constants
  import opened Ranking

  /** Some tag of the list has this name. */
  predicate Declares(tags: seq<Tag>, name: string) {
    exists t | t in tags :: t.name == name
  }

  /** An implication edge: some tag named a lists b among the tags it implies. */
  predicate Edge(tags: seq<Tag>, a: string, b: string) {
    exists t | t in tags :: t.name == a && b in t.implies
  }

  /** Every name listed in an `implies` is the name of a tag of the same list. */
  predicate TargetsDeclared(tags: seq<Tag>) {
    forall t, x | t in tags && x in t.implies :: Declares(tags, x)
  }

  /** A chain of names, each implying the next. */
  predicate IsPath(tags: seq<Tag>, p: seq<string>) {
    |p| >= 1 && forall i | 0 <= i < |p| - 1 :: Edge(tags, p[i], p[i + 1])
  }

  /** a implies b, directly or through other tags. */
  ghost predicate Reaches(tags: seq<Tag>, a: string, b: string) {
    exists p | IsPath(tags, p) :: |p| >= 2 && p[0] == a && p[|p| - 1] == b
  }

  /** No chain of one or more implications leads from a tag back to itself. */
  ghost predicate Acyclic(tags: seq<Tag>) {
    forall p | IsPath(tags, p) && |p| >= 2 :: p[0] != p[|p| - 1]
  }

  // ---------------------------------------------------------------------------
  // Closure under concatenation
  // ---------------------------------------------------------------------------

  /** A list whose parts each declare their own targets declares all of them. */
  lemma TargetsDeclaredAppend(a: seq<Tag>, b: seq<Tag>)
    requires TargetsDeclared(a) && TargetsDeclared(b)
    ensures TargetsDeclared(a + b)
  {
    forall t, x | t in a + b && x in t.implies
      ensures Declares(a + b, x)
    {
      if t in a {
        assert Declares(a, x);
      } else {
        assert Declares(b, x);
      }
      var u :| (u in a || u in b) && u.name == x;
      assert u in a + b;
    }
  }

  /** Every name the tags imply is one of the given names. */
  predicate TargetsAmong(tags: seq<Tag>, names: seq<string>) {
    forall t, x | t in tags && x in t.implies :: x in names
  }

  /** Targets among names that are all declared are declared. */
  lemma AmongDeclared(tags: seq<Tag>, names: seq<string>)
    requires TargetsAmong(tags, names)
    requires forall n | n in names :: Declares(tags, n)
    ensures TargetsDeclared(tags)
  {
  }

  /** A name is declared in a concatenation once it is declared in one part. */
  lemma DeclaresAppend(a: seq<Tag>, b: seq<Tag>, name: string)
    requires Declares(a, name) || Declares(b, name)
    ensures Declares(a + b, name)
  {
    var u :| (u in a || u in b) && u.name == name;
    assert u in a + b;
  }

  // ---------------------------------------------------------------------------
  // Acyclicity through a ranking
  // ---------------------------------------------------------------------------

  /** Every edge goes down the hierarchy. */
  predicate Descends(tags: seq<Tag>) {
    forall t, x | t in tags && x in t.implies :: Level(x) < Level(t.name)
  }

  lemma DescendsAppend(a: seq<Tag>, b: seq<Tag>)
    requires Descends(a) && Descends(b)
    ensures Descends(a + b)
  {
  }

  /** Along a chain of n edges the level drops by at least n. */
  lemma {:induction false} PathDescends(tags: seq<Tag>, p: seq<string>)
    requires Descends(tags) && IsPath(tags, p)
    ensures Level(p[|p| - 1]) + |p| - 1 <= Level(p[0])
  {
    if |p| >= 2 {
      var init := p[..|p| - 1];
      assert IsPath(tags, init) by {
        forall i | 0 <= i < |init| - 1
          ensures Edge(tags, init[i], init[i + 1])
        {
          assert init[i] == p[i] && init[i + 1] == p[i + 1];
        }
      }
      PathDescends(tags, init);
      assert Edge(tags, p[|p| - 2], p[|p| - 1]);
    }
  }

  /** A list whose edges all go down the hierarchy has no cycle. */
  lemma DescendsAcyclic(tags: seq<Tag>)
    requires Descends(tags)
    ensures Acyclic(tags)
  {
    forall p | IsPath(tags, p) && |p| >= 2
      ensures p[0] != p[|p| - 1]
    {
      PathDescends(tags, p);
    }
  }

  /** Named tags that imply others and are implied by none: all at the top. */
  const TopTags: seq<string> := ["pop app screenshot", "northern rail", "cab", "from above", "face-on", "side-on"]
  const MoreTopTags: seq<string> := ["shed", "level crossing", "terminated", "not stopping", "door tests", "low-high tone"]

  lemma TopLevels()
    ensures forall n | n in TopTags :: Level(n) == 3
  {
  }

  lemma MoreTopLevels()
    ensures forall n | n in MoreTopTags :: Level(n) == 3
  {
  }

  /** Station codes start with an upper-case letter. */
  lemma CodesUpper()
    ensures forall c :: |Code(c)| == 3 && 'A' <= Code(c)[0] <= 'Z'
  {
  }

  // ---------------------------------------------------------------------------
  // The context tags
  // ---------------------------------------------------------------------------

  lemma StationTagsDescend()
    ensures Descends(StationTags())
  {
    GeneralLevels();
    IntermediateLevels();
    CodesUpper();
    forall t, x | t in StationTags() && x in t.implies
      ensures Level(x) < Level(t.name)
    {
      var i :| 0 <= i < |StationTags()| && StationTags()[i] == t;
      NotLowerIsTop(Code(StationCodes[i]));
    }
  }

  lemma TypeTagsDeclared()
    ensures TargetsDeclared(TypeTags())
  {
    assert Named("screenshot") in TypeTags();
  }

  /** Each station tag implies "metro station" and nothing else. */
  lemma StationTagsImplyStation()
    ensures forall t | t in StationTags() :: t.implies == ["metro station"]
  {
    forall t | t in StationTags()
      ensures t.implies == ["metro station"]
    {
      var i :| 0 <= i < |StationTags()| && StationTags()[i] == t;
    }
  }

  /** Sections of tags that imply nothing. */
  lemma PlainSectionsDeclared()
    ensures TargetsDeclared(FocusTags()) && TargetsDeclared([Named("metro station")]) && TargetsDeclared(SceneTags())
  {
  }

  /** Every context tag's implications name context tags. */
  lemma ContextTagsDeclared()
    ensures TargetsDeclared(ContextTags())
  {
    var station := [Named("metro station")];
    TypeTagsDeclared();
    PlainSectionsDeclared();
    var a := TypeTags() + FocusTags();
    TargetsDeclaredAppend(TypeTags(), FocusTags());
    TargetsDeclaredAppend(a, station);
    a := a + station;
    assert Named("metro station") in a;
    StationTagsImplyStation();
    TargetsDeclaredJoin(a, StationTags());
    a := a + StationTags();
    TargetsDeclaredAppend(a, SceneTags());
  }

  lemma TypeTagsDescend()
    ensures Descends(TypeTags())
  {
    TopLevels();
    GeneralLevels();
  }

  lemma FocusTagsDescend()
    ensures Descends(FocusTags())
  {
  }

  lemma SceneTagsDescend()
    ensures Descends(SceneTags())
  {
  }

  lemma ContextSectionsDescend()
    ensures Descends(TypeTags()) && Descends(FocusTags()) && Descends(SceneTags()) && Descends([Named("metro station")])
  {
    TypeTagsDescend();
    FocusTagsDescend();
    SceneTagsDescend();
  }

  /** No chain of context tags' implications returns to its start. */
  lemma ContextTagsAcyclic()
    ensures Acyclic(ContextTags())
  {
    StationTagsDescend();
    ContextSectionsDescend();
    DescendsAppend(TypeTags(), FocusTags());
    DescendsAppend(TypeTags() + FocusTags(), [Named("metro station")]);
    DescendsAppend(TypeTags() + FocusTags() + [Named("metro station")], StationTags());
    DescendsAppend(TypeTags() + FocusTags() + [Named("metro station")] + StationTags(), SceneTags());
    DescendsAcyclic(ContextTags());
  }

  // ---------------------------------------------------------------------------
  // The train tags
  // ---------------------------------------------------------------------------

  lemma Class555TagsDescend()
    ensures Descends(Class555Tags())
  {
    GeneralLevels();
    IntermediateLevels();
    forall t, x | t in Class555Tags() && x in t.implies
      ensures Level(x) < Level(t.name)
    {
      if t in Class555Units() {
        var i :| 0 <= i < |Class555Units()| && Class555Units()[i] == t;
        NotLowerIsTop(t.name);
      }
    }
  }

  lemma Class599TagsDescend()
    ensures Descends(Class599Tags())
  {
    GeneralLevels();
    IntermediateLevels();
    forall t, x | t in Class599Tags() && x in t.implies
      ensures Level(x) < Level(t.name)
    {
      if t in Class599Units() {
        var i :| 0 <= i < |Class599Units()| && Class599Units()[i] == t;
        Class599UnitName(i);
        NotLowerIsTop(t.name);
      }
    }
  }

  lemma BatteryLocoTagsDescend()
    ensures Descends(BatteryLocoTags())
  {
    BatteryLocosShape();
    NotLowerIsTop("BL0");
    NotLowerIsTop("BL1");
    NotLowerIsTop("BL2");
    assert GeneralTags[3] == "battery loco";
  }

  lemma NationalRailTagsDescend()
    ensures Descends(NationalRailTags())
  {
    TopLevels();
    assert GeneralTags[4] == "national rail";
  }

  lemma UnitTagsDescend()
    ensures Descends(UnitTags())
  {
    Class555TagsDescend();
    Class599TagsDescend();
    BatteryLocoTagsDescend();
    NationalRailTagsDescend();
    DescendsAppend([Named("metro")], Class555Tags());
    DescendsAppend([Named("metro")] + Class555Tags(), Class599Tags());
    DescendsAppend([Named("metro")] + Class555Tags() + Class599Tags(), [Named("RHTT")]);
    DescendsAppend([Named("metro")] + Class555Tags() + Class599Tags() + [Named("RHTT")], BatteryLocoTags());
    DescendsAppend([Named("metro")] + Class555Tags() + Class599Tags() + [Named("RHTT")] + BatteryLocoTags(), NationalRailTags());
  }

  const UnitTargets: seq<string> :=
    ["metro", "class 555", "class 599", "female announcements 599", "battery loco", "national rail"]

  lemma UnitTargetsAmong()
    ensures TargetsAmong(UnitTags(), UnitTargets)
  {
    BatteryLocosShape();
    assert TargetsAmong(Class555Tags(), UnitTargets) by {
      forall t, x | t in Class555Tags() && x in t.implies
        ensures x in UnitTargets
      {
        if t in Class555Units() {
          var i :| 0 <= i < |Class555Units()| && Class555Units()[i] == t;
        }
      }
    }
    assert TargetsAmong(Class599Tags(), UnitTargets) by {
      forall t, x | t in Class599Tags() && x in t.implies
        ensures x in UnitTargets
      {
        if t in Class599Units() {
          var i :| 0 <= i < |Class599Units()| && Class599Units()[i] == t;
        }
      }
    }
  }

  /** Every unit tag's implications name unit tags. */
  lemma UnitTagsDeclared()
    ensures TargetsDeclared(UnitTags())
  {
    var tags := UnitTags();
    UnitTargetsAmong();
    assert Named("metro") in tags;
    assert Class555Tags()[0] in tags;
    assert Class599Tags()[0] in tags && Class599Tags()[1] in tags;
    assert BatteryLocoTags()[0] in tags;
    assert NationalRailTags()[0] in tags;
    AmongDeclared(tags, UnitTargets);
  }

  lemma ViewTagsDescend()
    ensures Descends(ViewTags())
  {
    GeneralLevels();
    IntermediateLevels();
  }

  lemma PositionTagsDescend()
    ensures Descends(PositionTags())
  {
    GeneralLevels();
    IntermediateLevels();
    TopLevels();
    forall t, x | t in PositionTags() && x in t.implies
      ensures Level(x) < Level(t.name)
    {
      var i :| 0 <= i < |PositionTags()| && PositionTags()[i] == t;
      assert t.name in TopTags;
    }
  }

  lemma PlatformTagsDescend()
    ensures Descends(PlatformTags())
  {
    assert GeneralTags[7] == "platform";
    forall t, x | t in Platforms() && x in t.implies
      ensures Level(x) < Level(t.name)
    {
      var i :| 0 <= i < |Platforms()| && Platforms()[i] == t;
      assert t.name == "platform " + NatToString(i + 1) && x == "platform";
      PlatformIsTop(NatToString(i + 1));
    }
    DescendsAppend([Named("platform")], Platforms());
  }

  lemma PlaceTagsDescend()
    ensures Descends(PlaceTags())
  {
    GeneralLevels();
    MoreTopLevels();
  }

  lemma LocationTagsDescend()
    ensures Descends(LocationTags())
  {
    ViewTagsDescend();
    PositionTagsDescend();
    PlatformTagsDescend();
    PlaceTagsDescend();
    DescendsAppend(ViewTags(), PositionTags());
    DescendsAppend(ViewTags() + PositionTags(), PlatformTags());
    DescendsAppend(ViewTags() + PositionTags() + PlatformTags(), PlaceTags());
  }

  lemma AmongAppend(a: seq<Tag>, b: seq<Tag>, names: seq<string>)
    requires TargetsAmong(a, names) && TargetsAmong(b, names)
    ensures TargetsAmong(a + b, names)
  {
  }

  /** Appending tags whose targets are declared by the list or by themselves keeps it closed. */
  lemma TargetsDeclaredJoin(a: seq<Tag>, b: seq<Tag>)
    requires TargetsDeclared(a)
    requires forall t, x | t in b && x in t.implies :: Declares(a, x) || Declares(b, x)
    ensures TargetsDeclared(a + b)
  {
    forall t, x | t in a + b && x in t.implies
      ensures Declares(a + b, x)
    {
      if t in a {
        assert Declares(a, x);
      } else {
        assert Declares(a, x) || Declares(b, x);
      }
      DeclaresAppend(a, b, x);
    }
  }

  lemma ViewTagsDeclared()
    ensures TargetsDeclared(ViewTags())
    ensures forall t, x | t in PositionTags() && x in t.implies :: Declares(ViewTags(), x)
  {
    assert ViewTags()[0] in ViewTags() && ViewTags()[1] in ViewTags() && ViewTags()[2] in ViewTags();
  }

  lemma PlatformTagsDeclared()
    ensures TargetsDeclared(PlatformTags())
  {
    assert PlatformTags()[0] in PlatformTags();
    forall t, x | t in PlatformTags() && x in t.implies
      ensures Declares(PlatformTags(), x)
    {
      if t in Platforms() {
        var i :| 0 <= i < |Platforms()| && Platforms()[i] == t;
        assert x == "platform";
      }
    }
  }

  lemma PlaceTagsDeclared()
    ensures TargetsDeclared(PlaceTags())
  {
    assert PlaceTags()[0] in PlaceTags() && PlaceTags()[2] in PlaceTags();
  }

  /** Every location tag's implications name location tags. */
  lemma LocationTagsDeclared()
    ensures TargetsDeclared(LocationTags())
  {
    ViewTagsDeclared();
    PlatformTagsDeclared();
    PlaceTagsDeclared();
    TargetsDeclaredJoin(ViewTags(), PositionTags());
    TargetsDeclaredAppend(ViewTags() + PositionTags(), PlatformTags());
    TargetsDeclaredAppend(ViewTags() + PositionTags() + PlatformTags(), PlaceTags());
  }

  lemma MovementTagsDescend()
    ensures Descends(MovementTags())
  {
    GeneralLevels();
    MoreTopLevels();
  }

  lemma NonServiceTagsDescend()
    ensures Descends(NonServiceTags())
  {
    GeneralLevels();
    IntermediateLevels();
    MoreTopLevels();
  }

  lemma ActivityTagsDescend()
    ensures Descends(ActivityTags())
  {
    MovementTagsDescend();
    NonServiceTagsDescend();
    DescendsAppend(MovementTags(), NonServiceTags());
  }

  lemma MovementTagsDeclared()
    ensures TargetsDeclared(MovementTags())
    ensures Declares(MovementTags(), "arriving") && Declares(MovementTags(), "departing")
  {
    var movement := MovementTags();
    assert movement[0] in movement && movement[1] in movement && movement[3] in movement;
  }

  lemma NonServiceTargets()
    ensures forall t, x | t in NonServiceTags() && x in t.implies ::
      x in ["arriving", "departing"] || Declares(NonServiceTags(), x)
  {
    var nonService := NonServiceTags();
    assert nonService[0] in nonService && nonService[2] in nonService;
  }

  /** Every activity tag's implications name activity tags. */
  lemma ActivityTagsDeclared()
    ensures TargetsDeclared(ActivityTags())
  {
    MovementTagsDeclared();
    NonServiceTargets();
    TargetsDeclaredJoin(MovementTags(), NonServiceTags());
  }

  /** A service family descends when its service sits between the numbers and "passenger service". */
  lemma ServiceFamilyDescends(service: string, count: nat, first: nat)
    requires Level(service) == 1
    ensures Descends(ServiceFamily(service, count, first))
  {
    GeneralLevels();
    ServiceNumbersOnly(count, first, service);
    forall t, x | t in ServiceFamily(service, count, first) && x in t.implies
      ensures Level(x) < Level(t.name)
    {
      if t in ServiceNumbers(count, first, service) {
        var n :| first <= n < first + count && t.name == "T" + NatToString(n);
        NotLowerIsTop(t.name);
      }
    }
  }

  lemma ServiceTagsDescend()
    ensures Descends(ServiceTags())
  {
    IntermediateLevels();
    ServiceFamilyDescends("yellow line service", 15, 121);
    ServiceFamilyDescends("green line service", 12, 101);
    ServiceFamilyDescends("additional service", 59, 140);
    var yellow, green, additional :=
      ServiceFamily("yellow line service", 15, 121), ServiceFamily("green line service", 12, 101),
      ServiceFamily("additional service", 59, 140);
    DescendsAppend([Named("passenger service")], yellow);
    DescendsAppend([Named("passenger service")] + yellow, green);
    DescendsAppend([Named("passenger service")] + yellow + green, additional);
  }

  const ServiceTargets: seq<string> := ["passenger service", "yellow line service", "green line service", "additional service"]

  /** A service family's targets are among the service names and is declared by its head. */
  lemma ServiceFamilyAmong(service: string, count: nat, first: nat, names: seq<string>)
    requires service in names && "passenger service" in names
    ensures TargetsAmong(ServiceFamily(service, count, first), names)
    ensures Declares(ServiceFamily(service, count, first), service)
  {
    ServiceNumbersOnly(count, first, service);
    assert ServiceFamily(service, count, first)[0] in ServiceFamily(service, count, first);
  }

  /** Every service tag's implications name service tags. */
  lemma ServiceTagsDeclared()
    ensures TargetsDeclared(ServiceTags())
  {
    var head := [Named("passenger service")];
    var yellow, green, additional :=
      ServiceFamily("yellow line service", 15, 121), ServiceFamily("green line service", 12, 101),
      ServiceFamily("additional service", 59, 140);
    ServiceFamilyAmong("yellow line service", 15, 121, ServiceTargets);
    ServiceFamilyAmong("green line service", 12, 101, ServiceTargets);
    ServiceFamilyAmong("additional service", 59, 140, ServiceTargets);
    assert TargetsAmong(head, ServiceTargets);
    AmongAppend(head, yellow, ServiceTargets);
    AmongAppend(head + yellow, green, ServiceTargets);
    AmongAppend(head + yellow + green, additional, ServiceTargets);
    assert head[0] in head;
    DeclaresAppend(head, yellow, "passenger service");
    DeclaresAppend(head, yellow, "yellow line service");
    DeclaresAppend(head + yellow, green, "passenger service");
    DeclaresAppend(head + yellow, green, "yellow line service");
    DeclaresAppend(head + yellow, green, "green line service");
    forall n | n in ServiceTargets
      ensures Declares(ServiceTags(), n)
    {
      DeclaresAppend(head + yellow + green, additional, n);
    }
    AmongDeclared(ServiceTags(), ServiceTargets);
  }

  lemma DestinationTagsDescend()
    ensures Descends(DestinationTags()) && TargetsDeclared(DestinationTags())
  {
    DestinationTagsShape();
  }

  lemma ToneTagsDescend()
    ensures Descends(ToneTags())
  {
    GeneralLevels();
    IntermediateLevels();
    MoreTopLevels();
  }

  lemma ToneTagsDeclared()
    ensures TargetsDeclared(ToneTags())
  {
    var tones := ToneTags();
    assert tones[0] in tones && tones[1] in tones && tones[2] in tones;
  }

  // ---------------------------------------------------------------------------
  // The whole train vocabulary
  // ---------------------------------------------------------------------------

  /** Every train tag's implications name train tags. */
  lemma TrainTagsDeclared()
    ensures TargetsDeclared(TrainTags())
  {
    UnitTagsDeclared();
    LocationTagsDeclared();
    ActivityTagsDeclared();
    ServiceTagsDeclared();
    DestinationTagsDescend();
    ToneTagsDeclared();
    var a := UnitTags();
    TargetsDeclaredAppend(a, LocationTags());
    a := a + LocationTags();
    TargetsDeclaredAppend(a, ActivityTags());
    a := a + ActivityTags();
    TargetsDeclaredAppend(a, ServiceTags());
    a := a + ServiceTags();
    TargetsDeclaredAppend(a, DestinationTags());
    a := a + DestinationTags();
    TargetsDeclaredAppend(a, ToneTags());
    a := a + ToneTags();
    TargetsDeclaredAppend(a, [Named("doors out of use")]);
  }

  /** No chain of train tags' implications returns to its start. */
  lemma TrainTagsAcyclic()
    ensures Descends(TrainTags())
    ensures Acyclic(TrainTags())
  {
    UnitTagsDescend();
    LocationTagsDescend();
    ActivityTagsDescend();
    ServiceTagsDescend();
    DestinationTagsDescend();
    ToneTagsDescend();
    var a := UnitTags();
    DescendsAppend(a, LocationTags());
    a := a + LocationTags();
    DescendsAppend(a, ActivityTags());
    a := a + ActivityTags();
    DescendsAppend(a, ServiceTags());
    a := a + ServiceTags();
    DescendsAppend(a, DestinationTags());
    a := a + DestinationTags();
    DescendsAppend(a, ToneTags());
    a := a + ToneTags();
    DescendsAppend(a, [Named("doors out of use")]);
    DescendsAcyclic(TrainTags());
  }

  /** A tag's own implications are edges of any list holding it. */
  lemma TagEdge(tags: seq<Tag>, t: Tag, b: string)
    requires t in tags && b in t.implies
    ensures Edge(tags, t.name, b)
  {
  }

  /** Consecutive edges make a path, and a path of two or more names a reachability fact. */
  lemma Path3(tags: seq<Tag>, a: string, b: string, c: string)
    requires Edge(tags, a, b) && Edge(tags, b, c)
    ensures IsPath(tags, [a, b, c]) && Reaches(tags, a, c)
  {
    var p := [a, b, c];
    assert IsPath(tags, p);
  }

  lemma Path4(tags: seq<Tag>, a: string, b: string, c: string, d: string)
    requires Edge(tags, a, b) && Edge(tags, b, c) && Edge(tags, c, d)
    ensures IsPath(tags, [a, b, c, d]) && Reaches(tags, a, d)
  {
    var p := [a, b, c, d];
    assert forall i | 0 <= i < 3 :: Edge(tags, p[i], p[i + 1]);
    assert IsPath(tags, p);
  }

  /** The tags of the class 599 family are train tags. */
  lemma Class599InTrainTags(t: Tag)
    requires t in Class599Tags()
    ensures t in TrainTags()
  {
    var units := [Named("metro")] + Class555Tags() + Class599Tags();
    assert t in units;
    assert t in UnitTags();
  }

  /** The tone tags are train tags. */
  lemma TonesInTrainTags(t: Tag)
    requires t in ToneTags()
    ensures t in TrainTags()
  {
    var front := UnitTags() + LocationTags() + ActivityTags() + ServiceTags() + DestinationTags();
    assert TrainTags() == front + ToneTags() + [Named("doors out of use")];
  }

  /** "4073" implies "metro" through the female announcements variant and its class. */
  lemma FemaleAnnouncementChain()
    ensures IsPath(TrainTags(), ["4073", "female announcements 599", "class 599", "metro"])
    ensures Reaches(TrainTags(), "4073", "metro")
  {
    var tags := TrainTags();
    var family := Class599Tags();
    Class599SpecialUnits();
    var unit := Class599Units()[72];
    assert unit in family && family[0] in family && family[1] in family;
    Class599InTrainTags(unit);
    Class599InTrainTags(family[0]);
    Class599InTrainTags(family[1]);
    TagEdge(tags, unit, "female announcements 599");
    TagEdge(tags, family[1], "class 599");
    TagEdge(tags, family[0], "metro");
    Path4(tags, "4073", "female announcements 599", "class 599", "metro");
  }

  /** "low-high tone" implies "tone" along two different chains. */
  lemma LowHighToneChains()
    ensures IsPath(TrainTags(), ["low-high tone", "low tone", "tone"])
    ensures IsPath(TrainTags(), ["low-high tone", "high tone", "tone"])
    ensures Reaches(TrainTags(), "low-high tone", "tone")
  {
    var tags := TrainTags();
    var tones := ToneTags();
    assert tones[1] in tones && tones[2] in tones && tones[3] in tones;
    TonesInTrainTags(tones[1]);
    TonesInTrainTags(tones[2]);
    TonesInTrainTags(tones[3]);
    TagEdge(tags, tones[3], "low tone");
    TagEdge(tags, tones[3], "high tone");
    TagEdge(tags, tones[1], "tone");
    TagEdge(tags, tones[2], "tone");
    Path3(tags, "low-high tone", "low tone", "tone");
    Path3(tags, "low-high tone", "high tone", "tone");
  }
}
