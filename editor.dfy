/**
 * The editor's global state in utils/editor.c (`state`, the cursor, the
 * window and the line table) and the input handlers that change it in place.
 * Drawing (`drawLines`, `updateCursorPosition`) writes only to the terminal
 * and is not modelled.
 */
module Editor {
  import opened Wrappers
  import opened EditorSpec

  class Editor {
    var state: Mode
    var cursorX: nat
    var cursorY: nat
    var windowX: nat
    var windowY: nat
    var linesUsed: nat
    /** `lines[i].length` for each entry of the line table. */
    var lineLengths: seq<nat>
    /** Set once `exit(0)` has been called. */
    var halted: bool

    function Pos(): Position
      reads this
    {
      Position(cursorX, cursorY, windowX, windowY)
    }

    function Snapshot(): EditorState
      reads this
    {
      EditorState(state, Pos(), halted)
    }

    ghost predicate Valid()
      reads this
    {
      EditorSpec.Valid(Snapshot(), linesUsed, lineLengths)
    }

    /**
     * The editor once `readFile` has read lines of the given lengths (none
     * when there is no file): the table gets a zero-length entry after them,
     * and the cursor and window start at the top left.
     */
    constructor (fileLineLengths: seq<nat>)
      ensures Valid() && !halted && state == Normal
      ensures linesUsed == |fileLineLengths| && lineLengths == fileLineLengths + [0]
      ensures Pos() == Position(0, 0, 0, 0)
    {
      state := Normal;
      cursorX, cursorY, windowX, windowY := 0, 0, 0, 0;
      linesUsed := |fileLineLengths|;
      lineLengths := fileLineLengths + [0];
      halted := false;
    }

    /** `handleKey(c)`. */
    method HandleKey(c: byte)
      requires !halted
      modifies this`state, this`halted
      ensures Snapshot() == KeyNext(old(Snapshot()), c)
    {
      if c == Esc {
        state := Escaped;
      } else if c == Quit {
        halted := true;
      }
    }

    /** `handleSequence(c)`. */
    method HandleSequence(c: byte)
      requires Valid()
      modifies this`cursorX, this`cursorY, this`windowX, this`windowY
      ensures Valid()
      ensures Pos() == SequenceNext(old(Pos()), c, linesUsed, lineLengths)
    {
      ghost var p0 := Pos();
      SequenceKeepsBounds(p0, c, linesUsed, lineLengths);
      if c == ArrowUp {
        if cursorY > 0 {
          cursorY := cursorY - 1;
        } else if windowY > 0 {
          windowY := windowY - 1;
        }
      } else if c == ArrowDown {
        if cursorY < Height - 1 && windowY + cursorY < linesUsed {
          cursorY := cursorY + 1;
        } else if windowY + cursorY < linesUsed {
          windowY := windowY + 1;
        }
      } else if c == ArrowRight {
        if cursorX < Width - 1 {
          cursorX := cursorX + 1;
        } else if cursorX + windowX < lineLengths[cursorY + windowY] {
          windowX := windowX + 1;
        }
      } else if c == ArrowLeft {
        if cursorX > 0 {
          cursorX := cursorX - 1;
        } else if windowX > 0 {
          windowX := windowX - 1;
        }
      }
      ghost var moved := Pos();
      assert moved == Moved(p0, c, linesUsed, lineLengths);
      FitToLine();
      assert Pos() == Clamped(moved, CurrentLength(moved, lineLengths));
    }

    /** The end of `handleSequence`: fit the column to the line now under the cursor. */
    method FitToLine()
      requires windowY + cursorY < |lineLengths|
      modifies this`cursorX, this`windowX
      ensures Pos() == Clamped(old(Pos()), CurrentLength(old(Pos()), lineLengths))
    {
      var length := lineLengths[cursorY + windowY];
      if windowX >= length {
        windowX := if length > 0 then length - 1 else 0;
        cursorX := length - windowX;
      } else if cursorX + windowX > length {
        cursorX := length - windowX;
      }
    }

    /** `getInput`, given the byte `read` returned, if any. */
    method GetInput(input: Option<byte>)
      requires Valid() && !halted
      modifies this`state, this`halted, this`cursorX, this`cursorY, this`windowX, this`windowY
      ensures Valid()
      ensures Snapshot() == InputNext(old(Snapshot()), input, linesUsed, lineLengths)
    {
      if input.Some? {
        var c := input.value;
        if state == Normal {
          HandleKey(c);
        } else if state == Escaped {
          if c == OpenBracket {
            state := Sequence;
          } else {
            HandleKey(c);
            if !halted {
              state := Normal;
            }
          }
        } else {
          HandleSequence(c);
          state := Normal;
        }
      }
    }
  }
}
