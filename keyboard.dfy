/**
 * The virtual-keyboard hook shared by the text-entry screens (useVirtualKeyboard in
 * components/Apps.tsx): how one key event changes the screen's input buffer, and
 * whether it submits.
 */
module VirtualKeyboard {

  /** The buffer after one key, and whether the key was ENTER (which calls the screen's onEnter). */
  datatype KeyResult = KeyResult(input: string, enter: bool)

  /** The key handler of useVirtualKeyboard. */
  function ApplyKey(input: string, key: string): (r: KeyResult)
    ensures r.enter <==> key == "ENTER"
    ensures r.enter ==> r.input == input
    ensures |key| == 1 ==> r.input == input + key
    ensures key == "SPACE" ==> r.input == input + " "
    ensures key == "DEL" ==> r.input == input[..if |input| == 0 then 0 else |input| - 1]
    ensures |key| != 1 && key !in {"DEL", "SPACE"} ==> r.input == input
  {
    if key == "DEL" then KeyResult(if |input| == 0 then input else input[..|input| - 1], false)
    else if key == "ENTER" then KeyResult(input, true)
    else if key == "SPACE" then KeyResult(input + " ", false)
    else if |key| == 1 then KeyResult(input + key, false)
    else KeyResult(input, false)
  }

  /** The buffer after typing every character of `word` as a one-character key. */
  function TypeWord(input: string, word: string): string
    decreases |word|
  {
    if word == [] then input else TypeWord(ApplyKey(input, word[..1]).input, word[1..])
  }

  /** Typing a word character by character appends exactly that word. */
  lemma {:induction false} TypeWordAppends(input: string, word: string)
    ensures TypeWord(input, word) == input + word
    decreases |word|
  {
    if word != [] {
      TypeWordAppends(input + word[..1], word[1..]);
      assert input + word[..1] + word[1..] == input + word;
    }
  }

  /** DEL undoes one typed character. */
  lemma DelUndoesChar(input: string, c: char)
    ensures ApplyKey(ApplyKey(input, [c]).input, "DEL").input == input
  {
    assert (input + [c])[..|input|] == input;
  }

  /** DEL on an empty buffer leaves it empty. */
  lemma DelOnEmpty()
    ensures ApplyKey("", "DEL") == KeyResult("", false)
  {
  }
}
