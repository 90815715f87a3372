/** Owners that are not traders or corporations, and their display names. */
module SpecialOwners {

  datatype SpecialOwner = Alien | TheFederation | SpacePirates | RogueMercenaries | Abandoned | Unknown

  /** The enum constant's name(). */
  function ConstantName(o: SpecialOwner): string
  {
    match o
    case Alien => "ALIEN"
    case TheFederation => "THE_FEDERATION"
    case SpacePirates => "SPACE_PIRATES"
    case RogueMercenaries => "ROGUE_MERCENARIES"
    case Abandoned => "ABANDONED"
    case Unknown => "UNKNOWN"
  }

  /** Character.toLowerCase on ASCII letters. */
  function ToLower(c: char): char
  {
    if 'A' <= c <= 'Z' then (c as int + 32) as char else c
  }

  /** A character starts a word when it is first or follows an '_'. */
  predicate StartsWord(name: string, i: int)
    requires 0 <= i < |name|
  {
    i == 0 || name[i - 1] == '_'
  }

  /** The display character for position i of a constant name. */
  function TitleChar(name: string, i: int): char
    requires 0 <= i < |name|
  {
    if name[i] == '_' then ' '
    else if StartsWord(name, i) then name[i]
    else ToLower(name[i])
  }

  /** The title-cased display name of a constant name. */
  function Title(name: string): (t: string)
    ensures |t| == |name|
    ensures forall i :: 0 <= i < |name| ==> t[i] == TitleChar(name, i)
  {
    seq(|name|, i requires 0 <= i < |name| => TitleChar(name, i))
  }

  /** getName: the display name of a special owner. */
  method GetName(o: SpecialOwner) returns (r: string)
    ensures r == Title(ConstantName(o))
  {
    r := TitleCase(ConstantName(o));
  }

  /** The loop of getName: walks the name with a `cap` flag. */
  method TitleCase(name: string) returns (r: string)
    ensures r == Title(name)
  {
    var sb := "";
    var cap := true;
    var i := 0;
    while i < |name|
      invariant 0 <= i <= |name|
      invariant sb == Title(name)[..i]
      invariant cap == (i == 0 || name[i - 1] == '_')
    {
      var c := name[i];
      if c == '_' {
        sb := sb + [' '];
        cap := true;
      } else if cap {
        sb := sb + [c];
        cap := false;
      } else {
        sb := sb + [ToLower(c)];
      }
      assert sb == Title(name)[..i] + [TitleChar(name, i)];
      i := i + 1;
    }
    r := sb;
  }

  /** The display name keeps the length of the constant name and has no '_'. */
  lemma TitleShape(name: string)
    ensures |Title(name)| == |name|
    ensures forall i :: 0 <= i < |name| ==> Title(name)[i] != '_'
    ensures forall i :: 0 <= i < |name| ==> (Title(name)[i] == ' ' <==> name[i] == '_' || name[i] == ' ')
  {
  }

  lemma TitleExamples()
    ensures Title(ConstantName(SpacePirates)) == "Space Pirates"
    ensures Title(ConstantName(Alien)) == "Alien"
  {
    var t := Title("SPACE_PIRATES");
    assert t[5] == ' ' && t[6] == 'P';
    assert t == "Space Pirates";
    assert Title("ALIEN") == "Alien";
  }
}
