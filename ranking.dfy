/**
 * A ranking of tag names by how general they are. Every implication the
 * vocabularies declare goes from a higher level to a lower one, which is
 * what rules out cycles.
 */
module Ranking {
  /** The most general tags: every tag they are implied by is more specific. */
  const GeneralTags: seq<string> :=
    ["metro station", "screenshot", "metro", "battery loco", "national rail", "foreground", "exterior", "platform"]
    + ["depot", "between stations", "stopped", "not in service", "arriving", "departing", "passenger service", "tone"]

  /** Tags that imply only general tags. */
  const IntermediateTags: seq<string> :=
    ["class 555", "class 599", "interior", "testing", "yellow line service", "green line service"]
    + ["additional service", "low tone", "high tone"]

  /** A tag's height in the hierarchy; every other tag sits at the top. */
  function Level(name: string): (l: nat)
    ensures l <= 3
  {
    if name in GeneralTags then 0
    else if name in IntermediateTags then 1
    else if name == "female announcements 599" then 2
    else 3
  }

  lemma GeneralLevels()
    ensures forall n | n in GeneralTags :: Level(n) == 0
  {
  }

  lemma IntermediateLevels()
    ensures forall n | n in IntermediateTags :: Level(n) == 1
    ensures Level("female announcements 599") == 2
  {
  }

  /** Names that do not start with a lower-case letter are at the top. */
  lemma NotLowerIsTop(name: string)
    requires |name| > 0 && !('a' <= name[0] <= 'z')
    ensures Level(name) == 3
  {
  }

  /** The numbered platforms are at the top. */
  lemma PlatformIsTop(d: string)
    requires |d| == 1
    ensures Level("platform " + d) == 3
  {
    var name := "platform " + d;
    assert |name| == 10 && name[0] == 'p' && name[1] == 'l';
  }
}
