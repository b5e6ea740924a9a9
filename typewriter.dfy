/**
 * The output widget's typewriter effect (`TypewriterText.typewrite`): a
 * call made while an animation runs is dropped; otherwise the text is cut
 * into lines and each character is shown first as a random letter or
 * digit, which is then deleted and replaced by the real character.
 */
module Typewriter {
  import opened PyText

  /** The lines `typewrite` animates: `text.splitlines()`, or one empty line for empty text. */
  function Lines(text: string): (lines: seq<string>)
    ensures |lines| >= 1
    ensures forall i :: 0 <= i < |lines| ==> NoLineBreak(lines[i])
  {
    SplitLinesHaveNoBreaks(text);
    if text == [] then [""] else SplitLines(text)
  }

  /** The widget's `insert(pos, c)` on its contents. */
  function Insert(s: string, pos: nat, c: char): (r: string)
    requires pos <= |s|
    ensures |r| == |s| + 1 && r[pos] == c
    ensures r[..pos] == s[..pos] && r[pos + 1..] == s[pos..]
  {
    s[..pos] + [c] + s[pos..]
  }

  /** The widget's `delete(pos)`: the one character at `pos` goes. */
  function Delete(s: string, pos: nat): (r: string)
    requires pos < |s|
    ensures |r| == |s| - 1
    ensures r[..pos] == s[..pos] && r[pos..] == s[pos + 1..]
  {
    s[..pos] + s[pos + 1..]
  }

  /** Deleting where a character was just inserted gives the old contents back. */
  lemma {:induction false} DeleteUndoesInsert(s: string, pos: nat, c: char)
    requires pos <= |s|
    ensures Delete(Insert(s, pos, c), pos) == s
  {
    var t := Insert(s, pos, c);
    assert Delete(t, pos) == t[..pos] + t[pos + 1..];
    assert s == s[..pos] + s[pos..];
  }

  /** Terminating one more line appends it and its "\n". */
  lemma {:induction false} TerminatedExtend(lines: seq<string>, i: nat)
    requires i < |lines|
    ensures Terminated(lines[..i + 1]) == Terminated(lines[..i]) + lines[i] + "\n"
  {
    if i == 0 {
      assert lines[..1] == [lines[0]];
      TerminatedOne(lines[0], []);
    } else {
      var tail := lines[1..];
      assert lines[..i + 1] == [lines[0]] + tail[..i];
      assert lines[..i] == [lines[0]] + tail[..i - 1];
      TerminatedOne(lines[0], tail[..i]);
      TerminatedOne(lines[0], tail[..i - 1]);
      TerminatedExtend(tail, i - 1);
    }
  }

  /**
   * What an animation adds to the widget, for text whose only line
   * terminator is "\n": the text itself, with a final "\n" when it lacked
   * one (and a lone "\n" for empty text).
   */
  lemma {:induction false} TypedText(text: string)
    requires OnlyNewlines(text)
    ensures Terminated(Lines(text))
            == if text == [] then "\n" else if text[|text| - 1] == '\n' then text else text + "\n"
  {
    if text == [] {
      TerminatedOne("", []);
    } else {
      TerminatedSplitLines(text);
    }
  }

  class TypewriterText {
    /** The widget's text, without Tk's own final newline. */
    var buffer: string
    var isTyping: bool
    /** The lines the animation in flight is typing out. */
    var pending: seq<string>

    constructor ()
      ensures buffer == [] && !isTyping && pending == []
    {
      buffer := [];
      isTyping := false;
      pending := [];
    }

    /**
     * `typewrite(text)`: dropped while an animation is in flight; otherwise
     * it marks the widget busy and hands the lines to the animation thread.
     */
    method Typewrite(text: string)
      modifies this
      ensures buffer == old(buffer) && isTyping
      ensures pending == if old(isTyping) then old(pending) else Lines(text)
    {
      if isTyping {
        return;
      }
      isTyping := true;
      pending := Lines(text);
    }

    /**
     * The animation thread (`_process_lines`). `garbled(i, j)` is the random
     * character shown in place of character `j` of line `i`. However they
     * are chosen, none remains: the widget gains exactly each line followed
     * by "\n", and is free for the next call afterwards.
     */
    method ProcessLines(garbled: (nat, nat) -> char)
      requires isTyping
      modifies this
      ensures buffer == old(buffer) + Terminated(old(pending))
      ensures !isTyping && pending == old(pending)
    {
      var lines := pending;
      var i := 0;
      while i < |lines|
        invariant 0 <= i <= |lines| && lines == pending
        invariant buffer == old(buffer) + Terminated(lines[..i])
      {
        var line := lines[i];
        var currentPos := |buffer|;
        var j := 0;
        while j < |line|
          invariant 0 <= j <= |line| && currentPos == |buffer| && lines == pending
          invariant buffer == old(buffer) + Terminated(lines[..i]) + line[..j]
        {
          ghost var before := buffer;
          buffer := Insert(buffer, currentPos, garbled(i, j));
          buffer := Delete(buffer, currentPos);
          DeleteUndoesInsert(before, currentPos, garbled(i, j));
          buffer := Insert(buffer, currentPos, line[j]);
          assert buffer == before + [line[j]];
          assert line[..j + 1] == line[..j] + [line[j]];
          currentPos := |buffer|;
          j := j + 1;
        }
        assert line[..|line|] == line;
        buffer := buffer + "\n";
        TerminatedExtend(lines, i);
        i := i + 1;
      }
      assert lines[..|lines|] == lines;
      isTyping := false;
    }
  }
}
