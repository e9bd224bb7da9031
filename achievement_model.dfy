/** An achievement and the translation keys of its name and description. */
module AchievementModel {
  import opened Wrappers
  import opened Text

  /** A member of the achievement type enumeration, by its declared name
      (what `Enum.GetName` returns for it). */
  datatype AchievementType = AchievementType(name: string)

  datatype Achievement = Achievement(Id: int, Name: string, Type: AchievementType, Description: string, Steps: int)

  /** What every achievement key starts with. */
  const KeyPrefix: string := "Achievement."

  /** The key of an achievement for the given final segment. It reads
      back as the type name, steps and segment whenever the segment has no
      dot, even when the type name has some. */
  function Key(typeName: string, steps: int, segment: string): (r: string)
    ensures '.' !in segment ==> ParseKey(r) == Some((typeName, steps, segment))
  {
    KeyRoundTrip(typeName, steps, segment);
    KeyPrefix + typeName + "." + IntToString(steps) + "." + segment
  }

  /** `new AchievementModel(id, type, steps)`. */
  function NewAchievement(id: int, achievementType: AchievementType, steps: int): (a: Achievement)
    ensures a.Id == id && a.Type == achievementType && a.Steps == steps
    ensures ParseKey(a.Name) == Some((achievementType.name, steps, "Name"))
    ensures ParseKey(a.Description) == Some((achievementType.name, steps, "Description"))
  {
    NoDotInSegments();
    Achievement(id, Key(achievementType.name, steps, "Name"), achievementType,
                Key(achievementType.name, steps, "Description"), steps)
  }

  lemma NoDotInSegments()
    ensures '.' !in "Name" && '.' !in "Description"
  {
  }

  /** The position of the last `c` in `s`, or -1. */
  function LastIndexOf(s: string, c: char): (r: int)
    ensures -1 <= r < |s|
    ensures r >= 0 ==> s[r] == c && forall k :: r < k < |s| ==> s[k] != c
    ensures r == -1 ==> c !in s
  {
    if s == [] then -1
    else if s[|s| - 1] == c then |s| - 1
    else LastIndexOf(s[..|s| - 1], c)
  }

  /** Reads a key back into its type name, step count and final segment:
      the reference that `NewAchievement`'s keys are checked against. */
  function ParseKey(key: string): Option<(string, int, string)> {
    if |key| < |KeyPrefix| || key[..|KeyPrefix|] != KeyPrefix then None
    else ParseSegments(key[|KeyPrefix|..])
  }

  /** The part of a key after the prefix: the segment follows the last
      dot, the steps the one before, and the type name is the rest. */
  function ParseSegments(rest: string): Option<(string, int, string)> {
    var d2 := LastIndexOf(rest, '.');
    if d2 < 0 then None
    else
      var body := rest[..d2];
      var d1 := LastIndexOf(body, '.');
      if d1 < 0 then None
      else match ParseInt(body[d1 + 1..])
        case None => None
        case Some(steps) => Some((body[..d1], steps, rest[d2 + 1..]))
  }

  lemma LastIndexOfAt(s: string, c: char, k: int)
    requires 0 <= k < |s| && s[k] == c && forall i :: k < i < |s| ==> s[i] != c
    ensures LastIndexOf(s, c) == k
  {
  }

  /** Splitting at the last dot of `x.y`, when `y` has no dot, gives
      back `x` and `y`. */
  lemma LastDotSplit(x: string, y: string)
    requires '.' !in y
    ensures var s := x + "." + y;
      LastIndexOf(s, '.') == |x| && s[..|x|] == x && s[|x| + 1..] == y
  {
    var s := x + "." + y;
    assert s[|x|] == '.' && s[|x| + 1..] == y;
    assert forall i :: |x| < i < |s| ==> s[i] == y[i - |x| - 1];
    LastIndexOfAt(s, '.', |x|);
  }

  /** The segments after the prefix read back whenever the step count's
      text has no dot and parses back. */
  lemma SegmentsRoundTrip(typeName: string, digits: string, steps: int, segment: string)
    requires '.' !in digits && '.' !in segment && ParseInt(digits) == Some(steps)
    ensures ParseSegments(typeName + "." + digits + "." + segment) == Some((typeName, steps, segment))
  {
    var body := typeName + "." + digits;
    LastDotSplit(body, segment);
    LastDotSplit(typeName, digits);
  }

  /** Parsing a key is parsing what follows the prefix. */
  lemma ParsePrefixed(rest: string)
    ensures ParseKey(KeyPrefix + rest) == ParseSegments(rest)
  {
    assert (KeyPrefix + rest)[..|KeyPrefix|] == KeyPrefix && (KeyPrefix + rest)[|KeyPrefix|..] == rest;
  }

  /** The text of a key names its type, steps and segment unambiguously,
      even when the type name contains dots, since neither the steps nor
      the segment do. */
  lemma KeyRoundTrip(typeName: string, steps: int, segment: string)
    ensures '.' !in segment ==>
      ParseKey(KeyPrefix + typeName + "." + IntToString(steps) + "." + segment) == Some((typeName, steps, segment))
  {
    if '.' !in segment {
      var rest := typeName + "." + IntToString(steps) + "." + segment;
      assert KeyPrefix + typeName + "." + IntToString(steps) + "." + segment == KeyPrefix + rest;
      ParsePrefixed(rest);
      IntToStringRoundTrip(steps);
      SegmentsRoundTrip(typeName, IntToString(steps), steps, segment);
    }
  }

  /** Different achievements never share a key for the same segment, so
      neither their names nor their descriptions collide. */
  lemma KeysInjective(t1: AchievementType, s1: int, t2: AchievementType, s2: int, segment: string)
    requires '.' !in segment
    requires Key(t1.name, s1, segment) == Key(t2.name, s2, segment)
    ensures t1 == t2 && s1 == s2
  {
  }

  /** Name and description keys share everything but the last segment. */
  lemma NameAndDescriptionDiffer(id: int, t: AchievementType, steps: int)
    ensures var a := NewAchievement(id, t, steps);
      var stem := "Achievement." + t.name + "." + IntToString(steps) + ".";
      a.Name == stem + "Name" && a.Description == stem + "Description" && a.Name != a.Description
  {
  }
}
