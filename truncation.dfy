/**
 * `GetFirstCharacters`, which shortens a server reply for an error message. The export
 * program truncates the text as it is (exportdashboards 203-212); the import program first
 * turns every control character into a space (importdashboards 558-569).
 */
module Truncation {

  /** `char.IsControl`: the Unicode category Cc, U+0000-U+001F and U+007F-U+009F. */
  predicate IsControl(c: char) {
    c as int <= 0x1F || (0x7F <= c as int <= 0x9F)
  }

  /** Export variant: the first `characters` characters and "...", or the whole text when it is not longer. */
  function GetFirstCharacters(text: string, characters: nat): (r: string)
    ensures |r| == if characters < |text| then characters + 3 else |text|
    ensures characters < |text| ==> r[..characters] == text[..characters] && r[characters..] == "..."
    ensures characters >= |text| ==> r == text
  {
    if characters < |text| then text[..characters] + "..." else text
  }

  /** The text with every control character replaced by a space. */
  function OneLine(text: string): (r: string)
    ensures |r| == |text|
    ensures forall i :: 0 <= i < |r| ==> !IsControl(r[i])
    ensures forall i :: 0 <= i < |r| && !IsControl(text[i]) ==> r[i] == text[i]
    ensures forall i :: 0 <= i < |r| && IsControl(text[i]) ==> r[i] == ' '
  {
    seq(|text|, i requires 0 <= i < |text| => if IsControl(text[i]) then ' ' else text[i])
  }

  /** Import variant: like the export one, but on the text made into a single line. */
  function GetFirstCharactersOneLine(text: string, characters: nat): (r: string)
    ensures |r| == if |text| > characters then characters + 3 else |text|
    ensures forall i :: 0 <= i < |r| ==> !IsControl(r[i])
    ensures |text| > characters ==> r[characters..] == "..."
  {
    var oneliner := OneLine(text);
    if |oneliner| > characters then oneliner[..characters] + "..." else oneliner
  }

  /** The two variants agree once the control characters are gone: the import one is the export one after `OneLine`. */
  lemma {:induction false} OneLineVariantAgrees(text: string, characters: nat)
    ensures GetFirstCharactersOneLine(text, characters) == GetFirstCharacters(OneLine(text), characters)
    ensures (forall i :: 0 <= i < |text| ==> !IsControl(text[i])) ==>
              GetFirstCharactersOneLine(text, characters) == GetFirstCharacters(text, characters)
  {
    if forall i :: 0 <= i < |text| ==> !IsControl(text[i]) {
      assert OneLine(text) == text;
    }
  }
}
