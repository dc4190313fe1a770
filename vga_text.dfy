/**
 * The VGA text-mode console writer: a 25 x 80 grid of character cells, a cursor
 * that moves left to right and top to bottom, scrolling when the last line is
 * full, and the hardware cursor kept in step through the CRT controller's ports.
 *
 * `Console` is the value-level view of a writer (screen, cursor, colour and the
 * bytes sent to the CRT controller) and gives each operation as a step function;
 * `Writer` is the object the kernel updates in place, over a two-dimensional
 * array of cells, and each of its methods is proved to perform that step.
 */
module VgaText {
  import opened Common

  const BUFFER_HEIGHT: nat := 25
  const BUFFER_WIDTH: nat := 80

  /** `b'\n'` */
  const NEWLINE: bv8 := 0x0A
  /** `b' '`, the byte of a blank cell */
  const SPACE: bv8 := 0x20

  /** The CRT controller's index and data ports, and the two cursor-location registers. */
  const CRTC_INDEX_PORT: nat := 0x3D4
  const CRTC_DATA_PORT: nat := 0x3D5
  const CURSOR_LOCATION_LOW: Byte := 0x0F
  const CURSOR_LOCATION_HIGH: Byte := 0x0E

  /** The attribute byte of a cell; how it packs foreground and background is defined
      in vga/mod.rs, which is not part of this model. */
  datatype ColorCode = ColorCode(bits: bv8)

  /** One cell of the text buffer. */
  datatype Character = Character(ascii: bv8, colorCode: ColorCode)

  /** One `outb(port, value)` issued by `update_cursor`. */
  datatype PortWrite = Outb(port: nat, value: Byte)

  /** Rows of cells, top row first. */
  type Screen = seq<seq<Character>>

  predicate IsScreen(s: Screen) {
    |s| == BUFFER_HEIGHT && forall r | 0 <= r < |s| :: |s[r]| == BUFFER_WIDTH
  }

  function Blank(color: ColorCode): Character {
    Character(SPACE, color)
  }

  function BlankRow(color: ColorCode): seq<Character> {
    seq(BUFFER_WIDTH, _ => Blank(color))
  }

  function BlankScreen(color: ColorCode): Screen {
    seq(BUFFER_HEIGHT, _ => BlankRow(color))
  }

  /** Every row moves up by one; the top row is lost and a blank row enters at the bottom. */
  function Scrolled(s: Screen, color: ColorCode): Screen
    requires IsScreen(s)
  {
    s[1..] + [BlankRow(color)]
  }

  /** The cell index sent to the hardware cursor, `(row * 80 + column) as u16`. */
  function CursorPosition(row: nat, column: nat): (p: nat)
    ensures p < 0x1_0000
    ensures row < BUFFER_HEIGHT && column <= BUFFER_WIDTH ==> p == row * BUFFER_WIDTH + column
  {
    (row * BUFFER_WIDTH + column) % 0x1_0000
  }

  /** The four port writes of `update_cursor(row, column)`: select the low cursor
      register and send the low byte, then select the high register and send the high byte. */
  function CursorWrites(row: nat, column: nat): (w: seq<PortWrite>)
    ensures |w| == 4
    ensures w[0] == Outb(CRTC_INDEX_PORT, CURSOR_LOCATION_LOW) && w[1].port == CRTC_DATA_PORT
    ensures w[2] == Outb(CRTC_INDEX_PORT, CURSOR_LOCATION_HIGH) && w[3].port == CRTC_DATA_PORT
    ensures w[1].value + 256 * w[3].value == CursorPosition(row, column)
  {
    var p := CursorPosition(row, column);
    [Outb(CRTC_INDEX_PORT, CURSOR_LOCATION_LOW), Outb(CRTC_DATA_PORT, p % 256),
     Outb(CRTC_INDEX_PORT, CURSOR_LOCATION_HIGH), Outb(CRTC_DATA_PORT, p / 256)]
  }

  /** The value-level state of a writer: the cells, the cursor, the current colour and
      every byte written to the CRT controller so far. */
  datatype Console = Console(screen: Screen, row: nat, column: nat, color: ColorCode, crtc: seq<PortWrite>)
  {
    /** The cursor invariant: the row is on screen and the column at most one past the last cell. */
    predicate Valid() {
      IsScreen(screen) && row < BUFFER_HEIGHT && column <= BUFFER_WIDTH
    }

    /** `Writer::new_line`: move to the start of the next line, scrolling when on the last one. */
    function NewLine(): (r: Console)
      requires Valid()
      ensures r.Valid() && r.column == 0 && r.color == color
      ensures r.row == if row < BUFFER_HEIGHT - 1 then row + 1 else BUFFER_HEIGHT - 1
      ensures r.crtc == crtc + CursorWrites(r.row, 0)
    {
      var moved := if row >= BUFFER_HEIGHT - 1
                   then this.(screen := Scrolled(screen, color), row := BUFFER_HEIGHT - 2)
                   else this;
      moved.(row := moved.row + 1, column := 0, crtc := crtc + CursorWrites(moved.row + 1, 0))
    }

    /** `Writer::write_byte`. */
    function WriteByte(b: bv8): (r: Console)
      requires Valid()
      ensures r.Valid() && r.color == color
      ensures b == NEWLINE ==> r.column == 0
      ensures b != NEWLINE ==> r.column >= 1
      ensures r.crtc == (if b == NEWLINE || column >= BUFFER_WIDTH then NewLine().crtc else crtc)
                        + CursorWrites(r.row, r.column)
    {
      if b == NEWLINE then
        var c := NewLine();
        c.(crtc := c.crtc + CursorWrites(c.row, c.column))
      else
        var c := if column >= BUFFER_WIDTH then NewLine() else this;
        c.(screen := c.screen[c.row := c.screen[c.row][c.column := Character(b, color)]],
           column := c.column + 1,
           crtc := c.crtc + CursorWrites(c.row, c.column + 1))
    }

    /** `Writer::write_str`: the bytes of the string written one by one, in order. */
    function WriteStr(s: seq<bv8>): (r: Console)
      requires Valid()
      ensures r.Valid() && r.color == color
      ensures s != [] ==> |r.crtc| > |crtc|
      decreases |s|
    {
      if s == [] then this else WriteByte(s[0]).WriteStr(s[1..])
    }

    /** `Writer::clear_buffer`: every cell blank in the current colour, cursor unmoved but re-sent. */
    function ClearBuffer(): (r: Console)
      requires Valid()
      ensures r.Valid()
      ensures forall i, j | 0 <= i < BUFFER_HEIGHT && 0 <= j < BUFFER_WIDTH :: r.screen[i][j] == Blank(color)
      ensures r.row == row && r.column == column && r.color == color
      ensures r.crtc == crtc + CursorWrites(row, column)
    {
      this.(screen := BlankScreen(color), crtc := crtc + CursorWrites(row, column))
    }

    /** The free function `clear_buffer`: clear the writer, then home the cursor to (0, 0). */
    function ClearAndHome(): (r: Console)
      requires Valid()
      ensures r.Valid() && r.row == 0 && r.column == 0 && r.color == color
      ensures forall i, j | 0 <= i < BUFFER_HEIGHT && 0 <= j < BUFFER_WIDTH :: r.screen[i][j] == Blank(color)
      ensures r.crtc == crtc + CursorWrites(row, column) + CursorWrites(0, 0)
    {
      var c := ClearBuffer();
      c.(row := 0, column := 0, crtc := c.crtc + CursorWrites(0, 0))
    }
  }

  /** On the last line, a line break shifts every row up by one and blanks the last row;
      on any other line it leaves the cells alone. */
  lemma NewLineScrollsOnlyOnLastRow(c: Console)
    requires c.Valid()
    ensures c.row < BUFFER_HEIGHT - 1 ==> c.NewLine().screen == c.screen
    ensures c.row == BUFFER_HEIGHT - 1 ==>
      && (forall i, j | 1 <= i < BUFFER_HEIGHT && 0 <= j < BUFFER_WIDTH ::
            c.NewLine().screen[i - 1][j] == c.screen[i][j])
      && c.NewLine().screen[BUFFER_HEIGHT - 1] == BlankRow(c.color)
  {
  }

  /** A byte other than a newline, written before the end of the line, is stored at the
      cursor in the current colour; the column advances by one and no other cell changes. */
  lemma WriteByteStoresOneCell(c: Console, b: bv8)
    requires c.Valid() && b != NEWLINE && c.column < BUFFER_WIDTH
    ensures c.WriteByte(b).screen[c.row][c.column] == Character(b, c.color)
    ensures c.WriteByte(b).row == c.row && c.WriteByte(b).column == c.column + 1
    ensures forall i, j | 0 <= i < BUFFER_HEIGHT && 0 <= j < BUFFER_WIDTH && (i, j) != (c.row, c.column) ::
      c.WriteByte(b).screen[i][j] == c.screen[i][j]
  {
  }

  /** A byte other than a newline, written when the line is full, first breaks the line:
      it lands in column 0 of the line `new_line` moves to. */
  lemma WriteByteBreaksFullLine(c: Console, b: bv8)
    requires c.Valid() && b != NEWLINE && c.column >= BUFFER_WIDTH
    ensures c.WriteByte(b).row == c.NewLine().row
    ensures c.WriteByte(b).column == 1
    ensures c.WriteByte(b).screen[c.NewLine().row][0] == Character(b, c.color)
    ensures forall i, j | 0 <= i < BUFFER_HEIGHT && 0 <= j < BUFFER_WIDTH && (i, j) != (c.NewLine().row, 0) ::
      c.WriteByte(b).screen[i][j] == c.NewLine().screen[i][j]
  {
  }

  /** A newline stores no cell: the screen is that of `new_line` and the column is 0. */
  lemma WriteNewlineStoresNoCell(c: Console)
    requires c.Valid()
    ensures c.WriteByte(NEWLINE).screen == c.NewLine().screen
    ensures c.WriteByte(NEWLINE).row == c.NewLine().row && c.WriteByte(NEWLINE).column == 0
    ensures c.row < BUFFER_HEIGHT - 1 ==> c.WriteByte(NEWLINE).screen == c.screen
  {
  }

  /** Writing a string and then one more byte is writing the longer string. */
  lemma {:induction false} WriteStrSnoc(c: Console, s: seq<bv8>, b: bv8)
    requires c.Valid()
    ensures c.WriteStr(s + [b]) == c.WriteStr(s).WriteByte(b)
    decreases |s|
  {
    if s == [] {
      assert [b][1..] == [];
    } else {
      assert (s + [b])[1..] == s[1..] + [b];
      WriteStrSnoc(c.WriteByte(s[0]), s[1..], b);
    }
  }

  /** After a non-empty string the last four port writes send the final cursor: the
      hardware cursor ends where the writer's cursor is. */
  lemma {:induction false} WriteStrEndsWithCursor(c: Console, s: seq<bv8>)
    requires c.Valid() && s != []
    ensures var r := c.WriteStr(s);
      |r.crtc| >= 4 && r.crtc[|r.crtc| - 4..] == CursorWrites(r.row, r.column)
    decreases |s|
  {
    var d := c.WriteByte(s[0]);
    if s[1..] == [] {
      assert c.WriteStr(s) == d.WriteStr([]) == d;
    } else {
      WriteStrEndsWithCursor(d, s[1..]);
    }
  }

  /** Writing two strings one after the other is writing their concatenation. */
  lemma {:induction false} WriteStrAppend(c: Console, s: seq<bv8>, t: seq<bv8>)
    requires c.Valid()
    ensures c.WriteStr(s + t) == c.WriteStr(s).WriteStr(t)
    decreases |s|
  {
    if s == [] {
      assert s + t == t;
    } else {
      assert (s + t)[1..] == s[1..] + t;
      WriteStrAppend(c.WriteByte(s[0]), s[1..], t);
    }
  }

  /** A string without newlines that fits in the rest of the line is laid out left to
      right from the cursor in the current colour; the row stays, the column advances by
      its length, and every other cell is unchanged. */
  lemma {:induction false} WriteStrWithinLine(c: Console, s: seq<bv8>)
    requires c.Valid()
    requires forall k | 0 <= k < |s| :: s[k] != NEWLINE
    requires c.column + |s| <= BUFFER_WIDTH
    ensures c.WriteStr(s).row == c.row && c.WriteStr(s).column == c.column + |s|
    ensures forall k | 0 <= k < |s| :: c.WriteStr(s).screen[c.row][c.column + k] == Character(s[k], c.color)
    ensures forall i, j | 0 <= i < BUFFER_HEIGHT && 0 <= j < BUFFER_WIDTH && !(i == c.row && c.column <= j < c.column + |s|) ::
      c.WriteStr(s).screen[i][j] == c.screen[i][j]
    decreases |s|
  {
    if s != [] {
      var d := c.WriteByte(s[0]);
      WriteByteStoresOneCell(c, s[0]);
      WriteStrWithinLine(d, s[1..]);
      forall k | 0 <= k < |s|
        ensures c.WriteStr(s).screen[c.row][c.column + k] == Character(s[k], c.color)
      {
        if k > 0 {
          assert s[1..][k - 1] == s[k];
        }
      }
    }
  }

  /** The cursor location sent to the hardware is the cell index itself (it never wraps
      in 16 bits), sent as its low byte and then its high byte. */
  lemma CursorFitsInSixteenBits(c: Console)
    requires c.Valid()
    ensures CursorPosition(c.row, c.column) == c.row * BUFFER_WIDTH + c.column <= BUFFER_HEIGHT * BUFFER_WIDTH
    ensures CursorWrites(c.row, c.column)[1].value + 256 * CursorWrites(c.row, c.column)[3].value
            == c.row * BUFFER_WIDTH + c.column
  {
  }

  /** The output side of `update_cursor`: the bytes written to the CRT controller's ports. */
  class CrtController {
    var log: seq<PortWrite>

    constructor ()
      ensures log == []
    {
      log := [];
    }

    /** `outb(port, value)` */
    method Outb(port: nat, value: Byte)
      modifies this
      ensures log == old(log) + [PortWrite.Outb(port, value)]
    {
      log := log + [PortWrite.Outb(port, value)];
    }
  }

  /** `update_cursor(row, column)`: send the truncated cell index, low byte first. */
  method UpdateCursor(crtc: CrtController, row: nat, column: nat)
    modifies crtc
    ensures crtc.log == old(crtc.log) + CursorWrites(row, column)
  {
    var position := CursorPosition(row, column);
    crtc.Outb(CRTC_INDEX_PORT, CURSOR_LOCATION_LOW);
    crtc.Outb(CRTC_DATA_PORT, position % 256);
    crtc.Outb(CRTC_INDEX_PORT, CURSOR_LOCATION_HIGH);
    crtc.Outb(CRTC_DATA_PORT, position / 256);
  }

  /** `fmt::Result` */
  datatype FmtResult = Ok | Err

  /** The console writer. `buffer` stands for the text buffer at 0xb8000; the ghost
      `screen` is its contents as a value, kept equal to it by `Valid()`. */
  class Writer {
    var rowPosition: nat
    var columnPosition: nat
    var color: ColorCode
    const buffer: array2<Character>
    const crtc: CrtController
    ghost var screen: Screen

    ghost predicate Valid()
      reads this, buffer
    {
      && buffer.Length0 == BUFFER_HEIGHT && buffer.Length1 == BUFFER_WIDTH
      && IsScreen(screen)
      && rowPosition < BUFFER_HEIGHT && columnPosition <= BUFFER_WIDTH
      && forall i, j | 0 <= i < BUFFER_HEIGHT && 0 <= j < BUFFER_WIDTH :: buffer[i, j] == screen[i][j]
    }

    /** The writer as a value. */
    ghost function State(): Console
      reads this, crtc
    {
      Console(screen, rowPosition, columnPosition, color, crtc.log)
    }

    /** The initial `WRITER`: cursor at (0, 0), drawing into the existing text buffer. */
    constructor (vram: array2<Character>, color: ColorCode, crtc: CrtController)
      requires vram.Length0 == BUFFER_HEIGHT && vram.Length1 == BUFFER_WIDTH
      ensures Valid() && buffer == vram && this.crtc == crtc
      ensures rowPosition == 0 && columnPosition == 0 && this.color == color
      ensures forall i, j | 0 <= i < BUFFER_HEIGHT && 0 <= j < BUFFER_WIDTH :: screen[i][j] == vram[i, j]
    {
      rowPosition, columnPosition := 0, 0;
      this.color := color;
      buffer := vram;
      this.crtc := crtc;
      screen := seq(BUFFER_HEIGHT, i requires 0 <= i < BUFFER_HEIGHT reads vram =>
                  seq(BUFFER_WIDTH, j requires 0 <= j < BUFFER_WIDTH reads vram => vram[i, j]));
    }

    /** `Writer::clear_row`: all 80 cells of `row` become blanks in the current colour;
        no other row changes. */
    method ClearRow(row: nat)
      requires buffer.Length0 == BUFFER_HEIGHT && buffer.Length1 == BUFFER_WIDTH && row < BUFFER_HEIGHT
      modifies buffer
      ensures forall i, j | 0 <= i < BUFFER_HEIGHT && 0 <= j < BUFFER_WIDTH ::
        buffer[i, j] == if i == row then Blank(color) else old(buffer[i, j])
    {
      var blank := Character(SPACE, color);
      for column := 0 to BUFFER_WIDTH
        invariant forall i, j | 0 <= i < BUFFER_HEIGHT && 0 <= j < BUFFER_WIDTH ::
          buffer[i, j] == if i == row && j < column then blank else old(buffer[i, j])
      {
        buffer[row, column] := blank;
      }
    }

    /** `Writer::new_line`: on the last row, copy every row onto the one above, blank the
        last row and stay on it; otherwise move down one row. */
    method NewLine()
      requires Valid()
      modifies this, buffer, crtc
      ensures Valid()
      ensures State() == old(State()).NewLine()
    {
      if rowPosition >= BUFFER_HEIGHT - 1 {
        for row := 1 to BUFFER_HEIGHT
          modifies buffer
          invariant forall i, j | 0 <= i < row - 1 && 0 <= j < BUFFER_WIDTH :: buffer[i, j] == screen[i + 1][j]
          invariant forall i, j | row - 1 <= i < BUFFER_HEIGHT && 0 <= j < BUFFER_WIDTH :: buffer[i, j] == screen[i][j]
        {
          for col := 0 to BUFFER_WIDTH
            modifies buffer
            invariant forall i, j | 0 <= i < row - 1 && 0 <= j < BUFFER_WIDTH :: buffer[i, j] == screen[i + 1][j]
            invariant forall i, j | i == row - 1 && 0 <= j < col :: buffer[i, j] == screen[i + 1][j]
            invariant forall i, j | i == row - 1 && col <= j < BUFFER_WIDTH :: buffer[i, j] == screen[i][j]
            invariant forall i, j | row <= i < BUFFER_HEIGHT && 0 <= j < BUFFER_WIDTH :: buffer[i, j] == screen[i][j]
          {
            buffer[row - 1, col] := buffer[row, col];
          }
        }
        ClearRow(BUFFER_HEIGHT - 1);
        screen := Scrolled(screen, color);
        columnPosition := 0;
        rowPosition := BUFFER_HEIGHT - 2;
      }
      rowPosition := rowPosition + 1;
      columnPosition := 0;
      UpdateCursor(crtc, rowPosition, columnPosition);
    }

    /** `Writer::write_byte`. */
    method WriteByte(ascii: bv8)
      requires Valid()
      modifies this, buffer, crtc
      ensures Valid()
      ensures State() == old(State()).WriteByte(ascii)
    {
      if ascii == NEWLINE {
        NewLine();
      } else {
        if columnPosition >= BUFFER_WIDTH {
          NewLine();
        }
        var row := rowPosition;
        var col := columnPosition;
        buffer[row, col] := Character(ascii, color);
        screen := screen[row := screen[row][col := Character(ascii, color)]];
        columnPosition := columnPosition + 1;
      }
      UpdateCursor(crtc, rowPosition, columnPosition);
    }

    /** `Writer::write_str`: `write_byte` on each byte of the string, in order. */
    method WriteStr(s: seq<bv8>)
      requires Valid()
      modifies this, buffer, crtc
      ensures Valid()
      ensures State() == old(State()).WriteStr(s)
    {
      ghost var start := State();
      for i := 0 to |s|
        invariant Valid()
        invariant State() == start.WriteStr(s[..i])
      {
        WriteStrSnoc(start, s[..i], s[i]);
        assert s[..i + 1] == s[..i] + [s[i]];
        WriteByte(s[i]);
      }
      assert s[..|s|] == s;
    }

    /** `fmt::Write::write_str`: the same writes, and the result is always `Ok`. */
    method FmtWriteStr(s: seq<bv8>) returns (result: FmtResult)
      requires Valid()
      modifies this, buffer, crtc
      ensures Valid()
      ensures State() == old(State()).WriteStr(s)
      ensures result == Ok
    {
      WriteStr(s);
      result := Ok;
    }

    /** `Writer::clear_buffer`: blank every row, then re-send the cursor. */
    method ClearBuffer()
      requires Valid()
      modifies this, buffer, crtc
      ensures Valid()
      ensures State() == old(State()).ClearBuffer()
    {
      for row := 0 to BUFFER_HEIGHT
        modifies buffer
        invariant forall i, j | 0 <= i < BUFFER_HEIGHT && 0 <= j < BUFFER_WIDTH ::
          buffer[i, j] == if i < row then Blank(color) else screen[i][j]
      {
        ClearRow(row);
      }
      screen := BlankScreen(color);
      UpdateCursor(crtc, rowPosition, columnPosition);
    }
  }

  /** The free function `clear_buffer`: clear the writer's cells, home its cursor and
      send (0, 0) to the hardware. */
  method ClearBuffer(writer: Writer)
    requires writer.Valid()
    modifies writer, writer.buffer, writer.crtc
    ensures writer.Valid()
    ensures writer.State() == old(writer.State()).ClearAndHome()
  {
    writer.ClearBuffer();
    writer.rowPosition := 0;
    writer.columnPosition := 0;
    UpdateCursor(writer.crtc, 0, 0);
  }
}
