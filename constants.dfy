/**
 * The application's constants: the media file extensions, the metro
 * network's station codes and lines, and the context and train tag
 * vocabularies with the generators that produce their numbered tags.
 */
module Constants {
  import opened Wrappers
  import opened Numerals

  const VideoExtensions: seq<string> := [".mp4", ".mov"]
  const ValidExtensions: seq<string> := [".jpg", ".jpeg", ".png", ".webp"] + VideoExtensions

  // ---------------------------------------------------------------------------
  // Stations and lines
  // ---------------------------------------------------------------------------

  /** The keys of `METRO_STATION_CODES`; the lines' stations are typed by them. */
  datatype StationCode =
    | APT | BDE | BFT | BTN | BYK | BYW | CAL | CEN
    | CHI | CRD | CUL | EBO | FAW | FEL | FGT | FLE
    | GHD | GST | HAY | HDR | HEB | HOW | HTH | ILF
    | JAR | JES | KSP | LBN | MAN | MLF | MSN | MSP
    | MMT | MTS | MTW | MWL | NPK | NSH | PAL | PCM
    | PLI | PLW | PMV | RGC | SBN | SFC | SGF | SHL
    | SJM | SMD | SMR | SSS | SUN | TDK | TYN | UNI
    | WBR | WJS | WKG | WMN | WSD | WTL

  /** The key itself, as a string. */
  function Code(c: StationCode): string {
    match c
    case APT => "APT"
    case BDE => "BDE"
    case BFT => "BFT"
    case BTN => "BTN"
    case BYK => "BYK"
    case BYW => "BYW"
    case CAL => "CAL"
    case CEN => "CEN"
    case CHI => "CHI"
    case CRD => "CRD"
    case CUL => "CUL"
    case EBO => "EBO"
    case FAW => "FAW"
    case FEL => "FEL"
    case FGT => "FGT"
    case FLE => "FLE"
    case GHD => "GHD"
    case GST => "GST"
    case HAY => "HAY"
    case HDR => "HDR"
    case HEB => "HEB"
    case HOW => "HOW"
    case HTH => "HTH"
    case ILF => "ILF"
    case JAR => "JAR"
    case JES => "JES"
    case KSP => "KSP"
    case LBN => "LBN"
    case MAN => "MAN"
    case MLF => "MLF"
    case MSN => "MSN"
    case MSP => "MSP"
    case MMT => "MMT"
    case MTS => "MTS"
    case MTW => "MTW"
    case MWL => "MWL"
    case NPK => "NPK"
    case NSH => "NSH"
    case PAL => "PAL"
    case PCM => "PCM"
    case PLI => "PLI"
    case PLW => "PLW"
    case PMV => "PMV"
    case RGC => "RGC"
    case SBN => "SBN"
    case SFC => "SFC"
    case SGF => "SGF"
    case SHL => "SHL"
    case SJM => "SJM"
    case SMD => "SMD"
    case SMR => "SMR"
    case SSS => "SSS"
    case SUN => "SUN"
    case TDK => "TDK"
    case TYN => "TYN"
    case UNI => "UNI"
    case WBR => "WBR"
    case WJS => "WJS"
    case WKG => "WKG"
    case WMN => "WMN"
    case WSD => "WSD"
    case WTL => "WTL"
  }

  /** `METRO_STATION_CODES[c]`: the station's name. */
  function StationName(c: StationCode): string {
    match c
    case APT => "Airport"
    case BDE => "Bede"
    case BFT => "Bank Foot"
    case BTN => "Benton"
    case BYK => "Byker"
    case BYW => "Brockley Whins"
    case CAL => "Callerton Parkway"
    case CEN => "Central Station"
    case CHI => "Chichester"
    case CRD => "Chillingham Road"
    case CUL => "Cullercoats"
    case EBO => "East Boldon"
    case FAW => "Fawdon"
    case FEL => "Felling"
    case FGT => "Fellgate"
    case FLE => "Four Lane Ends"
    case GHD => "Gateshead"
    case GST => "Gateshead Stadium"
    case HAY => "Haymarket"
    case HDR => "Hadrian Road"
    case HEB => "Hebburn"
    case HOW => "Howdon"
    case HTH => "Heworth"
    case ILF => "Ilford Road"
    case JAR => "Jarrow"
    case JES => "Jesmond"
    case KSP => "Kingston Park"
    case LBN => "Longbenton"
    case MAN => "Manors"
    case MLF => "Millfield"
    case MSN => "Monkseaton"
    case MSP => "St Peter's"
    case MMT => "Monument"
    case MTS => "Monument N-S"
    case MTW => "Monument W-E"
    case MWL => "Meadow Well"
    case NPK => "Northumberland Park"
    case NSH => "North Shields"
    case PAL => "Pallion"
    case PCM => "Percy Main"
    case PLI => "Park Lane"
    case PLW => "Pelaw"
    case PMV => "Palmersville"
    case RGC => "Regent Centre"
    case SBN => "Seaburn"
    case SFC => "Stadium of Light"
    case SGF => "South Gosforth"
    case SHL => "South Hylton"
    case SJM => "St James"
    case SMD => "Simonside"
    case SMR => "Shiremoor"
    case SSS => "South Shields"
    case SUN => "Sunderland"
    case TDK => "Tyne Dock"
    case TYN => "Tynemouth"
    case UNI => "University"
    case WBR => "Wansbeck Road"
    case WJS => "West Jesmond"
    case WKG => "Walkergate"
    case WMN => "West Monkseaton"
    case WSD => "Wallsend"
    case WTL => "Whitley Bay"
  }

  /**
   * The keys in declaration order, which is the order `Object.entries`
   * lists them in (written in rows of eight).
   */
  const StationCodes: seq<StationCode> :=
    [APT, BDE, BFT, BTN, BYK, BYW, CAL, CEN]
    + [CHI, CRD, CUL, EBO, FAW, FEL, FGT, FLE]
    + [GHD, GST, HAY, HDR, HEB, HOW, HTH, ILF]
    + [JAR, JES, KSP, LBN, MAN, MLF, MSN, MSP]
    + [MMT, MTS, MTW, MWL, NPK, NSH, PAL, PCM]
    + [PLI, PLW, PMV, RGC, SBN, SFC, SGF, SHL]
    + [SJM, SMD, SMR, SSS, SUN, TDK, TYN, UNI]
    + [WBR, WJS, WKG, WMN, WSD, WTL]

  const YellowLine: seq<StationCode> :=
    [SJM, MTW, MAN, BYK, CRD, WKG, WSD, HDR]
    + [HOW, PCM, MWL, NSH, TYN, CUL, WTL, MSN]
    + [WMN, SMR, NPK, PMV, BTN, FLE, LBN, SGF]
    + [ILF, WJS, JES, HAY, MTS, CEN, GHD, GST]
    + [FEL, HTH, PLW, HEB, JAR, BDE, SMD, TDK]
    + [CHI, SSS]

  const GreenLine: seq<StationCode> :=
    [APT, CAL, BFT, KSP, FAW, WBR, RGC, SGF]
    + [ILF, WJS, JES, HAY, MTS, CEN, GHD, GST]
    + [FEL, HTH, PLW, FGT, BYW, EBO, SBN, SFC]
    + [MSP, SUN, PLI, UNI, MLF, PAL, SHL]

  /** `METRO_LINES`: each line's stations, in route order. */
  const MetroLines: map<string, seq<StationCode>> := map["yellow" := YellowLine, "green" := GreenLine]

  // ---------------------------------------------------------------------------
  // Tags
  // ---------------------------------------------------------------------------

  /**
   * An autocomplete tag: its name, the tags it implies (empty when the
   * source gives none) and an optional display name. Emoji and colour are
   * display-only and not kept.
   */
  datatype Tag = Tag(name: string, implies: seq<string>, displayName: Option<string>)

  function Named(name: string): Tag {
    Tag(name, [], None)
  }

  function Implying(name: string, implies: seq<string>): Tag {
    Tag(name, implies, None)
  }

  /** One location tag per station: named by its code, implying "metro station". */
  function StationTag(c: StationCode): Tag {
    Tag(Code(c), ["metro station"], Some(StationName(c) + " metro station"))
  }

  function StationTags(): seq<Tag> {
    seq(|StationCodes|, i requires 0 <= i < |StationCodes| => StationTag(StationCodes[i]))
  }

  function TypeTags(): seq<Tag> {
    [Named("photo/video"), Named("screenshot"), Implying("pop app screenshot", ["screenshot"]),
     Named("thumbnail"), Named("video asset")]
  }

  function FocusTags(): seq<Tag> {
    [Named("train focus"), Named("station focus"), Named("destination board focus"), Named("advert focus")]
  }

  /** The time, weather, activity and angle tags, none of which implies another. */
  function SceneTags(): seq<Tag> {
    [Named("daytime"), Named("nighttime"),
     Named("sunny"), Named("cloudy"), Named("rain"), Named("snow"), Named("fog")]
    + [Named("talking"),
       Named("normal angle"), Named("low angle"), Named("dutch angle"), Named("zoomed in")]
  }

  /** `CONTEXT_TAGS`, section by section. */
  function ContextTags(): (tags: seq<Tag>)
    ensures |tags| == 84
  {
    TypeTags() + FocusTags() + [Named("metro station")] + StationTags() + SceneTags()
  }

  /** The three-digit suffix of a generated unit number. */
  function UnitSuffix(n: nat): string {
    PadStart(NatToString(n), 3, '0')
  }

  /** The 46 class 555 units, "555001" to "555046". */
  function Class555Unit(i: nat): (t: Tag)
    ensures t.implies == ["class 555"] && t.displayName == None
    ensures "555" <= t.name
  {
    Implying("555" + UnitSuffix(i + 1), ["class 555"])
  }

  function Class555Units(): seq<Tag> {
    seq(46, (i: nat) => Class555Unit(i))
  }

  /** The i-th class 599 unit; unit 4020 carries the jubilee livery, 4073 and 4081 the female announcements. */
  function Class599Unit(i: nat): (t: Tag)
    ensures "4" <= t.name
    ensures t.displayName.Some? <==> i == 19 || i == 72 || i == 80
    ensures |t.implies| == 1
  {
    var unitNumber := "4" + UnitSuffix(i + 1);
    if i == 19 then Tag(unitNumber, ["class 599"], Some("jubilee 4020"))
    else if i == 72 || i == 80 then Tag(unitNumber, ["female announcements 599"], Some("female announcements " + unitNumber))
    else Implying(unitNumber, ["class 599"])
  }

  /** The 90 class 599 units, "4001" to "4090". */
  function Class599Units(): seq<Tag> {
    seq(90, (i: nat) => Class599Unit(i))
  }

  /** The battery locomotives "BL0" to "BL2". */
  function BatteryLocos(): seq<Tag> {
    seq(3, (i: nat) => Implying("BL" + NatToString(i), ["battery loco"]))
  }

  /** "platform 1" to "platform 4". */
  function Platforms(): seq<Tag> {
    seq(4, (i: nat) => Implying("platform " + NatToString(i + 1), ["platform"]))
  }

  /** count consecutive service numbers from first, each implying the given service. */
  function ServiceNumbers(count: nat, first: nat, service: string): (tags: seq<Tag>)
    ensures |tags| == count
    ensures forall i | 0 <= i < count :: tags[i].implies == [service] && tags[i].displayName == None
  {
    var tags := seq(count, (i: nat) => Implying("T" + NatToString(i + first), [service]));
    assert forall k | 0 <= k < count :: tags[k] == Implying("T" + NatToString(k + first), [service]);
    tags
  }

  /** One destination tag per station, implying nothing. */
  function DestinationTag(c: StationCode): Tag {
    Tag("dest:" + Code(c), [], Some("destination " + StationName(c)))
  }

  function DestinationTags(): seq<Tag> {
    seq(|StationCodes|, i requires 0 <= i < |StationCodes| => DestinationTag(StationCodes[i]))
  }

  /** "class 555" and its units. */
  function Class555Tags(): seq<Tag> {
    [Implying("class 555", ["metro"])] + Class555Units()
  }

  /** "class 599", the female announcement units' tag, and the units. */
  function Class599Tags(): seq<Tag> {
    [Implying("class 599", ["metro"]), Implying("female announcements 599", ["class 599"])] + Class599Units()
  }

  /** "battery loco" and the locomotives. */
  function BatteryLocoTags(): seq<Tag> {
    [Named("battery loco")] + BatteryLocos()
  }

  function NationalRailTags(): seq<Tag> {
    [Named("national rail"), Implying("northern rail", ["national rail"])]
  }

  function UnitTags(): seq<Tag> {
    [Named("metro")] + Class555Tags() + Class599Tags() + [Named("RHTT")] + BatteryLocoTags() + NationalRailTags()
  }

  function ViewTags(): seq<Tag> {
    [Implying("interior", ["foreground"]), Named("exterior"), Named("foreground"), Named("background")]
  }

  function PositionTags(): seq<Tag> {
    [Implying("cab", ["interior"]), Named("middle"), Named("front"), Named("rear")]
    + [Implying("from above", ["exterior"]), Implying("face-on", ["exterior"]), Implying("side-on", ["exterior"])]
  }

  /** "platform" and the numbered platforms. */
  function PlatformTags(): seq<Tag> {
    [Named("platform")] + Platforms()
  }

  function PlaceTags(): seq<Tag> {
    [Named("depot"), Implying("shed", ["depot"]), Named("between stations"),
     Implying("level crossing", ["between stations"])]
  }

  function LocationTags(): seq<Tag> {
    ViewTags() + PositionTags() + PlatformTags() + PlaceTags()
  }

  function MovementTags(): seq<Tag> {
    [Named("arriving"), Named("stopped"), Implying("terminated", ["stopped"]), Named("departing")]
  }

  function NonServiceTags(): seq<Tag> {
    [Named("not in service"), Implying("not stopping", ["not in service", "arriving", "departing"]),
     Implying("testing", ["not in service"]), Implying("door tests", ["testing"]), Named("driver training")]
  }

  function ActivityTags(): seq<Tag> {
    MovementTags() + NonServiceTags()
  }

  /** A service implying "passenger service", followed by its service numbers. */
  function ServiceFamily(service: string, count: nat, first: nat): seq<Tag> {
    [Implying(service, ["passenger service"])] + ServiceNumbers(count, first, service)
  }

  function ServiceTags(): seq<Tag> {
    [Named("passenger service")]
    + ServiceFamily("yellow line service", 15, 121)
    + ServiceFamily("green line service", 12, 101)
    + ServiceFamily("additional service", 59, 140)
  }

  function ToneTags(): seq<Tag> {
    [Named("tone"), Implying("low tone", ["tone"]), Implying("high tone", ["tone"]),
     Implying("low-high tone", ["low tone", "high tone"])]
  }

  /** `TRAIN_TAGS`, section by section. */
  function TrainTags(): (tags: seq<Tag>)
    ensures |tags| == 333
  {
    UnitTags() + LocationTags() + ActivityTags() + ServiceTags() + DestinationTags() + ToneTags()
    + [Named("doors out of use")]
  }

  // ---------------------------------------------------------------------------
  // Facts about the data
  // ---------------------------------------------------------------------------

  /** `Object.entries` lists every key of the station record. */
  lemma StationCodesComplete()
    ensures |StationCodes| == 62
    ensures forall c: StationCode :: c in StationCodes
  {
    forall c: StationCode
      ensures c in StationCodes
    {
      match c
      case APT => assert StationCodes[0] == APT;
      case BDE => assert StationCodes[1] == BDE;
      case BFT => assert StationCodes[2] == BFT;
      case BTN => assert StationCodes[3] == BTN;
      case BYK => assert StationCodes[4] == BYK;
      case BYW => assert StationCodes[5] == BYW;
      case CAL => assert StationCodes[6] == CAL;
      case CEN => assert StationCodes[7] == CEN;
      case CHI => assert StationCodes[8] == CHI;
      case CRD => assert StationCodes[9] == CRD;
      case CUL => assert StationCodes[10] == CUL;
      case EBO => assert StationCodes[11] == EBO;
      case FAW => assert StationCodes[12] == FAW;
      case FEL => assert StationCodes[13] == FEL;
      case FGT => assert StationCodes[14] == FGT;
      case FLE => assert StationCodes[15] == FLE;
      case GHD => assert StationCodes[16] == GHD;
      case GST => assert StationCodes[17] == GST;
      case HAY => assert StationCodes[18] == HAY;
      case HDR => assert StationCodes[19] == HDR;
      case HEB => assert StationCodes[20] == HEB;
      case HOW => assert StationCodes[21] == HOW;
      case HTH => assert StationCodes[22] == HTH;
      case ILF => assert StationCodes[23] == ILF;
      case JAR => assert StationCodes[24] == JAR;
      case JES => assert StationCodes[25] == JES;
      case KSP => assert StationCodes[26] == KSP;
      case LBN => assert StationCodes[27] == LBN;
      case MAN => assert StationCodes[28] == MAN;
      case MLF => assert StationCodes[29] == MLF;
      case MSN => assert StationCodes[30] == MSN;
      case MSP => assert StationCodes[31] == MSP;
      case MMT => assert StationCodes[32] == MMT;
      case MTS => assert StationCodes[33] == MTS;
      case MTW => assert StationCodes[34] == MTW;
      case MWL => assert StationCodes[35] == MWL;
      case NPK => assert StationCodes[36] == NPK;
      case NSH => assert StationCodes[37] == NSH;
      case PAL => assert StationCodes[38] == PAL;
      case PCM => assert StationCodes[39] == PCM;
      case PLI => assert StationCodes[40] == PLI;
      case PLW => assert StationCodes[41] == PLW;
      case PMV => assert StationCodes[42] == PMV;
      case RGC => assert StationCodes[43] == RGC;
      case SBN => assert StationCodes[44] == SBN;
      case SFC => assert StationCodes[45] == SFC;
      case SGF => assert StationCodes[46] == SGF;
      case SHL => assert StationCodes[47] == SHL;
      case SJM => assert StationCodes[48] == SJM;
      case SMD => assert StationCodes[49] == SMD;
      case SMR => assert StationCodes[50] == SMR;
      case SSS => assert StationCodes[51] == SSS;
      case SUN => assert StationCodes[52] == SUN;
      case TDK => assert StationCodes[53] == TDK;
      case TYN => assert StationCodes[54] == TYN;
      case UNI => assert StationCodes[55] == UNI;
      case WBR => assert StationCodes[56] == WBR;
      case WJS => assert StationCodes[57] == WJS;
      case WKG => assert StationCodes[58] == WKG;
      case WMN => assert StationCodes[59] == WMN;
      case WSD => assert StationCodes[60] == WSD;
      case WTL => assert StationCodes[61] == WTL;
    }
  }

  /** Distinct keys are distinct strings, so the station tags have distinct names. */
  lemma CodeInjective()
    ensures forall c, d | Code(c) == Code(d) :: c == d
  {
  }

  /** Every station on either line is a key of the station record and so has a station tag. */
  lemma LineStationsAreStations()
    ensures forall line, c | line in MetroLines && c in MetroLines[line] :: c in StationCodes
  {
  }

  /** Each station contributes a context tag named by its code, implying "metro station", displayed as "<name> metro station". */
  lemma StationTagsInContext()
    ensures forall c: StationCode :: Tag(Code(c), ["metro station"], Some(StationName(c) + " metro station")) in ContextTags()
  {
    StationCodesComplete();
    forall c: StationCode
      ensures Tag(Code(c), ["metro station"], Some(StationName(c) + " metro station")) in ContextTags()
    {
      assert c in StationCodes;
      var i :| 0 <= i < |StationCodes| && StationCodes[i] == c;
      assert StationTags()[i] == StationTag(c);
      assert StationTags()[i] in StationTags();
    }
  }

  /** The suffix of unit n, for n from 1 to 999, is three digits reading n. */
  lemma UnitSuffixDigits(n: nat)
    requires 1 <= n <= 999
    ensures |UnitSuffix(n)| == 3
    ensures forall k | 0 <= k < 3 :: IsDigit(UnitSuffix(n)[k])
    ensures DigitsValue(UnitSuffix(n)) == n
  {
    Padded3(n);
  }

  /** A few suffixes worked out. */
  lemma UnitSuffixExamples()
    ensures UnitSuffix(1) == "001" && UnitSuffix(20) == "020" && UnitSuffix(46) == "046"
    ensures UnitSuffix(73) == "073" && UnitSuffix(81) == "081" && UnitSuffix(90) == "090"
  {
    assert NatToString(1) == "1";
    assert NatToString(2) == "2" && NatToString(20) == "20";
    assert NatToString(4) == "4" && NatToString(46) == "46";
    assert NatToString(7) == "7" && NatToString(73) == "73";
    assert NatToString(8) == "8" && NatToString(81) == "81";
    assert NatToString(9) == "9" && NatToString(90) == "90";
  }

  /** Unit i is named "555" and the three digits of i + 1, and implies "class 555" and nothing else. */
  lemma Class555UnitShape(i: nat)
    requires i < 46
    ensures |Class555Unit(i).name| == 6
    ensures Class555Unit(i).name[..3] == "555"
    ensures forall k | 3 <= k < 6 :: IsDigit(Class555Unit(i).name[k])
    ensures DigitsValue(Class555Unit(i).name[3..]) == i + 1
    ensures Class555Unit(i).implies == ["class 555"] && Class555Unit(i).displayName == None
  {
    UnitSuffixDigits(i + 1);
    assert Class555Unit(i).name[3..] == UnitSuffix(i + 1);
  }

  /** Exactly 46 class 555 units, "555001" to "555046", with distinct names. */
  lemma Class555UnitsShape()
    ensures |Class555Units()| == 46
    ensures Class555Units()[0].name == "555001" && Class555Units()[45].name == "555046"
    ensures forall i, j | 0 <= i < j < 46 :: Class555Units()[i].name != Class555Units()[j].name
  {
    UnitSuffixExamples();
    forall i, j | 0 <= i < j < 46
      ensures Class555Units()[i].name != Class555Units()[j].name
    {
      Class555UnitShape(i);
      Class555UnitShape(j);
    }
  }

  /** Unit i is named "4" and the three digits of i + 1. */
  lemma Class599UnitName(i: nat)
    requires i < 90
    ensures |Class599Unit(i).name| == 4 && Class599Unit(i).name[0] == '4'
    ensures forall k | 1 <= k < 4 :: IsDigit(Class599Unit(i).name[k])
    ensures DigitsValue(Class599Unit(i).name[1..]) == i + 1
  {
    UnitSuffixDigits(i + 1);
    assert Class599Unit(i).name[1..] == UnitSuffix(i + 1);
  }

  /** Exactly 90 class 599 units, "4001" to "4090", with distinct names. */
  lemma Class599UnitsNames()
    ensures |Class599Units()| == 90
    ensures Class599Units()[0].name == "4001" && Class599Units()[89].name == "4090"
    ensures forall i, j | 0 <= i < j < 90 :: Class599Units()[i].name != Class599Units()[j].name
  {
    UnitSuffixExamples();
    forall i, j | 0 <= i < j < 90
      ensures Class599Units()[i].name != Class599Units()[j].name
    {
      Class599UnitName(i);
      Class599UnitName(j);
    }
  }

  /** 4020 is displayed as the jubilee unit; 4073 and 4081 imply "female announcements 599". */
  lemma Class599SpecialUnits()
    ensures Class599Units()[19] == Tag("4020", ["class 599"], Some("jubilee 4020"))
    ensures Class599Units()[72] == Tag("4073", ["female announcements 599"], Some("female announcements 4073"))
    ensures Class599Units()[80] == Tag("4081", ["female announcements 599"], Some("female announcements 4081"))
  {
    UnitSuffixExamples();
    assert "4" + UnitSuffix(20) == "4020";
    assert "4" + UnitSuffix(73) == "4073";
    assert "4" + UnitSuffix(81) == "4081";
    assert "female announcements " + "4073" == "female announcements 4073";
    assert "female announcements " + "4081" == "female announcements 4081";
  }

  /** Every other class 599 unit implies "class 599" alone and has no display name. */
  lemma Class599OrdinaryUnits()
    ensures forall i | 0 <= i < 90 && i != 19 && i != 72 && i != 80 ::
      Class599Units()[i].implies == ["class 599"] && Class599Units()[i].displayName == None
  {
  }

  /** The battery locomotives are "BL0", "BL1" and "BL2", each implying "battery loco". */
  lemma BatteryLocosShape()
    ensures BatteryLocos() == [Implying("BL0", ["battery loco"]), Implying("BL1", ["battery loco"]), Implying("BL2", ["battery loco"])]
  {
    assert NatToString(0) == "0" && NatToString(1) == "1" && NatToString(2) == "2";
    assert BatteryLocos()[0] == Implying("BL0", ["battery loco"]);
    assert BatteryLocos()[1] == Implying("BL1", ["battery loco"]);
    assert BatteryLocos()[2] == Implying("BL2", ["battery loco"]);
  }

  /** Service numbers first to first + count - 1 are all generated. */
  lemma ServiceNumbersPresent(count: nat, first: nat, service: string)
    ensures |ServiceNumbers(count, first, service)| == count
    ensures forall n | first <= n < first + count :: Implying("T" + NatToString(n), [service]) in ServiceNumbers(count, first, service)
  {
    var block := ServiceNumbers(count, first, service);
    forall n | first <= n < first + count
      ensures Implying("T" + NatToString(n), [service]) in block
    {
      assert block[n - first] == Implying("T" + NatToString(n), [service]);
    }
  }

  /** Whether name is "T" followed by the numeral of a number from lo to hi - 1. */
  predicate ServiceNumberIn(name: string, lo: nat, hi: nat) {
    exists n | lo <= n < hi :: name == "T" + NatToString(n)
  }

  /** Every generated service number is in the range and implies the service alone. */
  lemma ServiceNumbersOnly(count: nat, first: nat, service: string)
    ensures forall t | t in ServiceNumbers(count, first, service) ::
      t.implies == [service] && ServiceNumberIn(t.name, first, first + count)
  {
    var block := ServiceNumbers(count, first, service);
    forall t | t in block
      ensures t.implies == [service] && ServiceNumberIn(t.name, first, first + count)
    {
      var i :| 0 <= i < |block| && block[i] == t;
      var n := i + first;
      assert block[i] == Implying("T" + NatToString(n), [service]);
      assert first <= n < first + count && t.name == "T" + NatToString(n);
    }
  }

  /**
   * T121 to T135 imply "yellow line service", T101 to T112 "green line
   * service", T140 to T198 "additional service", and all three services
   * imply "passenger service".
   */
  lemma ServiceTagsInTrainTags()
    ensures forall n | 121 <= n <= 135 :: Implying("T" + NatToString(n), ["yellow line service"]) in TrainTags()
    ensures forall n | 101 <= n <= 112 :: Implying("T" + NatToString(n), ["green line service"]) in TrainTags()
    ensures forall n | 140 <= n <= 198 :: Implying("T" + NatToString(n), ["additional service"]) in TrainTags()
    ensures Implying("yellow line service", ["passenger service"]) in TrainTags()
    ensures Implying("green line service", ["passenger service"]) in TrainTags()
    ensures Implying("additional service", ["passenger service"]) in TrainTags()
  {
    ServiceNumbersPresent(15, 121, "yellow line service");
    ServiceNumbersPresent(12, 101, "green line service");
    ServiceNumbersPresent(59, 140, "additional service");
  }

  /** Destination tags, one per station, imply nothing. */
  lemma DestinationTagsShape()
    ensures forall c | c in StationCodes :: Tag("dest:" + Code(c), [], Some("destination " + StationName(c))) in TrainTags()
    ensures forall t | t in DestinationTags() :: t.implies == []
  {
    forall c | c in StationCodes
      ensures Tag("dest:" + Code(c), [], Some("destination " + StationName(c))) in TrainTags()
    {
      var i :| 0 <= i < |StationCodes| && StationCodes[i] == c;
      assert DestinationTags()[i] == DestinationTag(c);
      assert DestinationTags()[i] in DestinationTags();
    }
  }
}
