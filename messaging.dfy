/**
 * The text-entry screens that keep a list of what was submitted (components/Apps.tsx):
 * the WhatsApp and Messaging chat logs, which append, and the Browser history, which
 * prepends. Each screen owns the input buffer of its virtual keyboard; ENTER submits.
 */
module Messaging {
  import opened VirtualKeyboard

  /** The WhiteSpace and LineTerminator code points of ECMAScript, which String.prototype.trim strips. */
  predicate IsJsSpace(c: char) {
    || c in {'\t', '\U{000B}', '\U{000C}', ' ', '\U{00A0}', '\U{FEFF}', '\n', '\r', '\U{2028}', '\U{2029}'}
    || c in {'\U{1680}', '\U{202F}', '\U{205F}', '\U{3000}'}
    || '\U{2000}' <= c <= '\U{200A}'
  }

  /** `s` without its leading white space. */
  function TrimStart(s: string): (r: string)
    ensures |r| <= |s| && r == s[|s| - |r|..]
    ensures forall i :: 0 <= i < |s| - |r| ==> IsJsSpace(s[i])
    ensures r == [] || !IsJsSpace(r[0])
    decreases |s|
  {
    if s != [] && IsJsSpace(s[0]) then TrimStart(s[1..]) else s
  }

  /** `s` without its trailing white space. */
  function TrimEnd(s: string): (r: string)
    ensures |r| <= |s| && r == s[..|r|]
    ensures forall i :: |r| <= i < |s| ==> IsJsSpace(s[i])
    ensures r == [] || !IsJsSpace(r[|r| - 1])
    decreases |s|
  {
    if s != [] && IsJsSpace(s[|s| - 1]) then TrimEnd(s[..|s| - 1]) else s
  }

  /** `r` is the slice of `s` at `k`, with only white space before and after it. */
  predicate TrimmedAt(s: string, r: string, k: int)
  {
    && 0 <= k && k + |r| <= |s| && r == s[k..k + |r|]
    && (forall i :: 0 <= i < k ==> IsJsSpace(s[i]))
    && (forall i :: k + |r| <= i < |s| ==> IsJsSpace(s[i]))
  }

  /** String.prototype.trim: `s` without its leading and trailing white space. */
  function Trim(s: string): (r: string)
    ensures exists k :: TrimmedAt(s, r, k)
    ensures r == [] || (!IsJsSpace(r[0]) && !IsJsSpace(r[|r| - 1]))
  {
    var t := TrimStart(s);
    var r := TrimEnd(t);
    assert TrimmedAt(s, r, |s| - |t|);
    r
  }

  /** `input.trim()` is truthy: some character is not white space. */
  function HasText(s: string): (b: bool)
    ensures b <==> exists i :: 0 <= i < |s| && !IsJsSpace(s[i])
  {
    TrimEmptyIffAllSpace(s);
    Trim(s) != ""
  }

  /** Trimming leaves nothing exactly when every character is white space. */
  lemma TrimEmptyIffAllSpace(s: string)
    ensures Trim(s) == "" <==> forall i :: 0 <= i < |s| ==> IsJsSpace(s[i])
  {
  }

  /** A chat log with its input buffer (WhatsAppApp, MessagesApp). */
  class ChatScreen {
    var log: seq<string>
    var input: string

    constructor WhatsApp()
      ensures log == ["Hey! Is that a Nexus One?", "Yeah! Running Android 2.3. Still works!"] && input == ""
    {
      log := ["Hey! Is that a Nexus One?", "Yeah! Running Android 2.3. Still works!"];
      input := "";
    }

    constructor Messages()
      ensures log == ["Welcome to Android!"] && input == ""
    {
      log := ["Welcome to Android!"];
      input := "";
    }

    /**
     * sendMessage: the untrimmed input goes at the end of the log unless it is blank.
     * WhatsApp's send button and ENTER on either screen call it; the send button of the
     * Messages screen has no handler, so there only `Key("ENTER")` reaches it.
     */
    method Send()
      modifies this
      ensures HasText(old(input)) ==> log == old(log) + [old(input)] && input == ""
      ensures !HasText(old(input)) ==> log == old(log) && input == old(input)
    {
      if HasText(input) {
        log := log + [input];
        input := "";
      }
    }

    /** A key of the virtual keyboard; ENTER sends. */
    method Key(key: string)
      modifies this
      ensures var r := ApplyKey(old(input), key);
        && (!r.enter ==> log == old(log) && input == r.input)
        && (r.enter && HasText(r.input) ==> log == old(log) + [r.input] && input == "")
        && (r.enter && !HasText(r.input) ==> log == old(log) && input == r.input)
    {
      var r := ApplyKey(input, key);
      input := r.input;
      if r.enter {
        Send();
      }
    }
  }

  /** The browser's address bar and its history, newest first (BrowserApp). */
  class BrowserScreen {
    var history: seq<string>
    var input: string

    constructor ()
      ensures history == [] && input == ""
    {
      history := [];
      input := "";
    }

    /** go: the untrimmed input goes in front of the history unless it is blank. */
    method Go()
      modifies this
      ensures HasText(old(input)) ==> history == [old(input)] + old(history) && input == ""
      ensures !HasText(old(input)) ==> history == old(history) && input == old(input)
    {
      if HasText(input) {
        history := [input] + history;
        input := "";
      }
    }

    /** A key of the virtual keyboard; ENTER goes. */
    method Key(key: string)
      modifies this
      ensures var r := ApplyKey(old(input), key);
        && (!r.enter ==> history == old(history) && input == r.input)
        && (r.enter && HasText(r.input) ==> history == [r.input] + old(history) && input == "")
        && (r.enter && !HasText(r.input) ==> history == old(history) && input == r.input)
    {
      var r := ApplyKey(input, key);
      input := r.input;
      if r.enter {
        Go();
      }
    }
  }

  /** The history after visiting `urls` in order, none of them blank. */
  function Visit(history: seq<string>, urls: seq<string>): seq<string>
    decreases |urls|
  {
    if urls == [] then history else Visit([urls[0]] + history, urls[1..])
  }

  function Reverse(s: seq<string>): (r: seq<string>)
    ensures |r| == |s|
    decreases |s|
  {
    if s == [] then [] else Reverse(s[1..]) + [s[0]]
  }

  /** Visits leave the history newest first: the visited addresses in reverse, then the older history. */
  lemma {:induction false} VisitNewestFirst(history: seq<string>, urls: seq<string>)
    ensures Visit(history, urls) == Reverse(urls) + history
    decreases |urls|
  {
    if urls != [] {
      VisitNewestFirst([urls[0]] + history, urls[1..]);
      assert Reverse(urls[1..]) + ([urls[0]] + history) == Reverse(urls) + history;
    }
  }
}
