/**
  Credential input and the access decision: the stored four-digit password, the
  four-slot buffer the serial (Bluetooth) receiver fills one byte at a time, the
  comparison between the two, and the 4x3 keypad scan.
*/
module Password {
  import opened Wrappers
  import opened Hardware

  const Rows: nat := 4
  const Columns: nat := 3

  /** Legend of the keypad, row by row, as the ASCII characters the scan returns. */
  const Keypad: seq<seq<char>> := [
    ['1', '2', '3'],
    ['4', '5', '6'],
    ['7', '8', '9'],
    ['*', '0', '#']
  ]

  /** The password compiled into the firmware. */
  const StoredPassword: seq<byte> := [1, 2, 3, 4]

  /** Byte sent back over the serial link for every byte received. */
  const Confirmation: byte := 1

  /** Row r of the keypad is driven through port D pin r. */
  function RowPin(r: nat): Pin
    requires r < Rows
  {
    Pin(PortD, r)
  }

  /** Columns 0, 1, 2 are sensed on PTD4, PTD5 and PTB3. */
  function ColumnPin(c: nat): Pin
    requires c < Columns
  {
    if c == 0 then Pin(PortD, 4) else if c == 1 then Pin(PortD, 5) else Pin(PortB, 3)
  }

  // ---------------------------------------------------------------------------
  // The access decision
  // ---------------------------------------------------------------------------

  /** A candidate is accepted when every one of its four symbols equals the stored
      one; so exactly one candidate is accepted, the stored password itself. */
  predicate Matches(candidate: seq<byte>): (ok: bool)
    ensures ok <==> candidate == StoredPassword
  {
    |candidate| == 4 && forall i :: 0 <= i < 4 ==> candidate[i] == StoredPassword[i]
  }

  /** A single wrong symbol anywhere rejects the whole attempt. */
  lemma SingleMismatchRejects(candidate: seq<byte>, i: nat)
    requires |candidate| == 4 && i < 4 && candidate[i] != StoredPassword[i]
    ensures !Matches(candidate)
  {
  }

  // ---------------------------------------------------------------------------
  // Serial ingestion into the four-slot buffer
  // ---------------------------------------------------------------------------

  /** The buffer filled by the serial receiver and the slot the next byte goes to. */
  datatype Wire = Wire(buffer: seq<byte>, cursor: nat)

  predicate WellFormed(w: Wire)
  {
    |w.buffer| == 4 && w.cursor < 4
  }

  /** The cursor after an accepted byte: one further on, back to 0 after slot 3. */
  function NextCursor(i: nat): (j: nat)
    ensures j < 4
    ensures i < 4 ==> j == (i + 1) % 4
  {
    if 3 <= i then 0 else i + 1
  }

  /** One receive attempt: a failed read changes nothing; a byte goes into the slot
      under the cursor, which then advances. */
  function Receive(w: Wire, rx: Option<byte>): (w': Wire)
    requires WellFormed(w)
    ensures WellFormed(w')
    ensures rx.None? ==> w' == w
    ensures rx.Some? ==> w'.buffer[w.cursor] == rx.value && w'.cursor == (w.cursor + 1) % 4
    ensures forall k :: 0 <= k < 4 && k != w.cursor ==> w'.buffer[k] == w.buffer[k]
  {
    match rx
    case None => w
    case Some(b) => Wire(w.buffer[w.cursor := b], NextCursor(w.cursor))
  }

  /** The buffer after a run of successfully received bytes. */
  function Feed(w: Wire, bytes: seq<byte>): (w': Wire)
    requires WellFormed(w)
    ensures WellFormed(w')
    decreases |bytes|
  {
    if bytes == [] then w
    else Receive(Feed(w, bytes[..|bytes| - 1]), Some(bytes[|bytes| - 1]))
  }

  /** The cursor advances by exactly one slot, modulo 4, per received byte. */
  lemma {:induction false} FeedCursor(w: Wire, bytes: seq<byte>)
    requires WellFormed(w)
    ensures Feed(w, bytes).cursor == (w.cursor + |bytes|) % 4
    decreases |bytes|
  {
    if bytes != [] {
      FeedCursor(w, bytes[..|bytes| - 1]);
    }
  }

  /** Each of the last (up to) four bytes received sits in the slot it was written
      to: byte i of the run lands in slot (cursor + i) mod 4 and stays there until
      four more bytes have arrived. */
  lemma {:induction false} FeedKeepsLastFour(w: Wire, bytes: seq<byte>, i: nat)
    requires WellFormed(w)
    requires i < |bytes| <= i + 4
    ensures Feed(w, bytes).buffer[(w.cursor + i) % 4] == bytes[i]
    decreases |bytes|
  {
    var n := |bytes|;
    var prefix := bytes[..n - 1];
    FeedCursor(w, prefix);
    if i < n - 1 {
      FeedKeepsLastFour(w, prefix, i);
      assert (w.cursor + i) % 4 != (w.cursor + n - 1) % 4;
    }
  }

  /** Sending the digits 1, 2, 3, 4 from a fresh cursor leaves exactly the stored
      password in the buffer and the cursor back at slot 0. */
  lemma WirelessEntryAccepted(w: Wire)
    requires WellFormed(w) && w.cursor == 0
    ensures Feed(w, [1, 2, 3, 4]).buffer == StoredPassword
    ensures Feed(w, [1, 2, 3, 4]).cursor == 0
    ensures Matches(Feed(w, [1, 2, 3, 4]).buffer)
  {
    var bytes: seq<byte> := [1, 2, 3, 4];
    FeedCursor(w, bytes);
    forall k | 0 <= k < 4 ensures Feed(w, bytes).buffer[k] == StoredPassword[k] {
      FeedKeepsLastFour(w, bytes, k);
    }
  }

  /** Sending 1, 2, 9, 4 is rejected. */
  lemma WirelessWrongDigitRejected(w: Wire)
    requires WellFormed(w) && w.cursor == 0
    ensures !Matches(Feed(w, [1, 2, 9, 4]).buffer)
  {
    FeedKeepsLastFour(w, [1, 2, 9, 4], 2);
  }

  /** The credential buffer as the firmware keeps it. */
  class CredentialInput {
    const pinData: array<byte>
    var dataIndex: nat

    ghost predicate Valid()
      reads this
    {
      pinData.Length == 4 && dataIndex < 4
    }

    /** The buffer and the cursor as a value. */
    ghost function Received(): Wire
      reads this, pinData
    {
      Wire(pinData[..], dataIndex)
    }

    /** Zeroed buffer, cursor on slot 0. */
    constructor ()
      ensures Valid() && fresh(pinData)
      ensures Received() == Wire([0, 0, 0, 0], 0)
    {
      pinData := new byte[4](_ => 0);
      dataIndex := 0;
      new;
      assert pinData[..] == [0, 0, 0, 0];
    }

    /** Compares the buffer with the stored password, slot by slot. */
    method IsCorrect() returns (isCorrect: bool)
      requires Valid()
      ensures isCorrect <==> Matches(pinData[..])
    {
      isCorrect := true;
      var i := 0;
      while i < 4
        invariant 0 <= i <= 4
        invariant isCorrect <==> forall j :: 0 <= j < i ==> pinData[j] == StoredPassword[j]
      {
        if !(pinData[i] == StoredPassword[i]) {
          isCorrect := false;
        }
        i := i + 1;
      }
    }

    /** The receive-interrupt handler. `rx` is what the serial read delivered (None
        when no byte was ready); `txReady` whether the transmitter accepted the
        confirmation byte. */
    method ReadVal(rx: Option<byte>, txReady: bool, hw: Board)
      requires Valid()
      modifies this`dataIndex, pinData, hw`trace
      ensures Valid()
      ensures Received() == Receive(old(Received()), rx)
      ensures hw.trace == old(hw.trace) + (if rx.Some? && txReady then [Send(Confirmation)] else [])
    {
      match rx
      case None =>
      case Some(b) =>
        pinData[dataIndex] := b;
        var sent := hw.UartSend(Confirmation, txReady);
        if 3 <= dataIndex {
          dataIndex := 0;
        } else {
          dataIndex := dataIndex + 1;
        }
    }
  }

  // ---------------------------------------------------------------------------
  // Keypad scan
  // ---------------------------------------------------------------------------

  datatype Cell = Cell(row: nat, column: nat)

  /** Row-major order of keypad cells. */
  predicate Precedes(a: Cell, b: Cell)
  {
    a.row < b.row || (a.row == b.row && a.column < b.column)
  }

  /** Column c reads active while row r is driven: the column pin must be an input
      (a read from an output fails and leaves 0) and `sense` must report it high. */
  predicate Active(outputs: set<Pin>, sense: (nat, nat) -> bool, r: nat, c: nat)
    requires c < Columns
  {
    ColumnPin(c) !in outputs && sense(r, c)
  }

  /** First active column of row r at or after column c. */
  function ScanRow(outputs: set<Pin>, sense: (nat, nat) -> bool, r: nat, c: nat): (found: Option<nat>)
    requires c <= Columns
    ensures found.Some? ==> c <= found.value < Columns && Active(outputs, sense, r, found.value)
    ensures found.Some? ==> forall c' :: c <= c' < found.value ==> !Active(outputs, sense, r, c')
    ensures found.None? ==> forall c' :: c <= c' < Columns ==> !Active(outputs, sense, r, c')
    decreases Columns - c
  {
    if c == Columns then None
    else if Active(outputs, sense, r, c) then Some(c)
    else ScanRow(outputs, sense, r, c + 1)
  }

  /** First active cell, in row-major order, in rows r and below. */
  function Scan(outputs: set<Pin>, sense: (nat, nat) -> bool, r: nat): (found: Option<Cell>)
    requires r <= Rows
    ensures found.Some? ==> r <= found.value.row < Rows && found.value.column < Columns
    ensures found.Some? ==> Active(outputs, sense, found.value.row, found.value.column)
    ensures found.Some? ==> forall r', c' :: r <= r' && 0 <= c' < Columns && Precedes(Cell(r', c'), found.value) ==>
                                               !Active(outputs, sense, r', c')
    ensures found.None? <==> forall r', c' :: r <= r' < Rows && 0 <= c' < Columns ==> !Active(outputs, sense, r', c')
    decreases Rows - r
  {
    if r == Rows then None
    else match ScanRow(outputs, sense, r, 0)
      case Some(c) => Some(Cell(r, c))
      case None => Scan(outputs, sense, r + 1)
  }

  /** A cell that is active, with every cell before it inactive, is what the scan finds. */
  lemma ScanFinds(outputs: set<Pin>, sense: (nat, nat) -> bool, row: nat, column: nat)
    requires row < Rows && column < Columns && Active(outputs, sense, row, column)
    requires forall r, c :: 0 <= r < row && 0 <= c < Columns ==> !Active(outputs, sense, r, c)
    requires forall c :: 0 <= c < column ==> !Active(outputs, sense, row, c)
    ensures Scan(outputs, sense, 0) == Some(Cell(row, column))
  {
    var found := Scan(outputs, sense, 0);
    assert found.Some?;
  }

  /** How many rows a scan drives: up to the row of the hit, or all of them. */
  function RowsDriven(found: Option<Cell>): nat
  {
    if found.Some? && found.value.row < Rows then found.value.row + 1 else Rows
  }

  /** Events of driving row r on and then off again. */
  function Strobe(outputs: set<Pin>, r: nat): seq<Event>
    requires r < Rows
  {
    IfOutput(RowPin(r), outputs, Write(RowPin(r), true)) + IfOutput(RowPin(r), outputs, Write(RowPin(r), false))
  }

  /** Events of a scan that drives the first n rows. */
  function ScanTrace(outputs: set<Pin>, n: nat): seq<Event>
    requires n <= Rows
  {
    if n == 0 then [] else ScanTrace(outputs, n - 1) + Strobe(outputs, n - 1)
  }

  /** After any number of rows, every row the scan drove is low again and the rows
      it has not reached keep their level. */
  lemma {:induction false} ScanLeavesRowsLow(outputs: set<Pin>, n: nat, r: nat, init: bool)
    requires n <= Rows && r < Rows
    ensures Level(RowPin(r), init, ScanTrace(outputs, n)) == (if r < n && RowPin(r) in outputs then false else init)
  {
    if n > 0 {
      var before := ScanTrace(outputs, n - 1);
      var strobe := Strobe(outputs, n - 1);
      LevelAppend(RowPin(r), init, before, strobe);
      ScanLeavesRowsLow(outputs, n - 1, r, init);
      var mid := Level(RowPin(r), init, before);
      var on := IfOutput(RowPin(n - 1), outputs, Write(RowPin(n - 1), true));
      var off := IfOutput(RowPin(n - 1), outputs, Write(RowPin(n - 1), false));
      LevelAppend(RowPin(r), mid, on, off);
      if RowPin(n - 1) in outputs {
        assert Level(RowPin(r), mid, on) == (if r == n - 1 then true else mid);
        assert Level(RowPin(r), Level(RowPin(r), mid, on), off) == (if r == n - 1 then false else mid);
      } else {
        assert on == [] && off == [];
      }
    }
  }

  /** Driving row r on and then off extends the scan of the rows before it. */
  lemma StrobeAppends(start: seq<Event>, outputs: set<Pin>, r: nat)
    requires r < Rows
    ensures start + ScanTrace(outputs, r) + IfOutput(RowPin(r), outputs, Write(RowPin(r), true))
              + IfOutput(RowPin(r), outputs, Write(RowPin(r), false))
            == start + ScanTrace(outputs, r + 1)
  {
    var on := IfOutput(RowPin(r), outputs, Write(RowPin(r), true));
    var off := IfOutput(RowPin(r), outputs, Write(RowPin(r), false));
    AppendAssociates(start + ScanTrace(outputs, r), on, off);
    AppendAssociates(start, ScanTrace(outputs, r), on + off);
  }

  /** Key character for a scan result; 0 when no key is pressed. */
  function KeyOf(found: Option<Cell>): (key: char)
    ensures key == '\0' <==> !(found.Some? && found.value.row < Rows && found.value.column < Columns)
  {
    if found.Some? && found.value.row < Rows && found.value.column < Columns then
      Keypad[found.value.row][found.value.column]
    else
      '\0'
  }

  /** Different keys carry different characters, so the character identifies the key. */
  lemma KeysDistinct(a: Cell, b: Cell)
    requires a.row < Rows && a.column < Columns && b.row < Rows && b.column < Columns
    requires a != b
    ensures KeyOf(Some(a)) != KeyOf(Some(b))
  {
  }

  /** Rows are outputs, columns inputs. */
  method MatrixPortInit(hw: Board)
    modifies hw`outputs
    ensures hw.outputs == old(hw.outputs) + {RowPin(0), RowPin(1), RowPin(2), RowPin(3)}
  {
    hw.PortInit(RowPin(0), Output);
    hw.PortInit(RowPin(1), Output);
    hw.PortInit(RowPin(2), Output);
    hw.PortInit(RowPin(3), Output);
    hw.PortInit(ColumnPin(0), Input);
    hw.PortInit(ColumnPin(1), Input);
    hw.PortInit(ColumnPin(2), Input);
  }

  /** Drives the rows one at a time and reads the columns; reports the first active
      cell in row-major order. With no key pressed the row and column variables are
      left at their loop-exit values 4 and 3. */
  method MatrixRead(hw: Board, sense: (nat, nat) -> bool) returns (hit: bool, row: nat, column: nat)
    modifies hw`trace
    ensures var found := Scan(hw.outputs, sense, 0);
            && (hit <==> found.Some?)
            && (hit ==> found.value == Cell(row, column))
            && (!hit ==> row == Rows && column == Columns)
    ensures hw.trace == old(hw.trace) + ScanTrace(hw.outputs, RowsDriven(Scan(hw.outputs, sense, 0)))
  {
    row, column := 0, 0;
    while row < Rows
      invariant row <= Rows
      invariant row > 0 ==> column == Columns
      invariant forall r, c :: 0 <= r < row && 0 <= c < Columns ==> !Active(hw.outputs, sense, r, c)
      invariant hw.trace == old(hw.trace) + ScanTrace(hw.outputs, row)
    {
      var driven := hw.WriteData(RowPin(row), true);
      column := 0;
      while column < Columns
        invariant column <= Columns
        invariant forall c :: 0 <= c < column ==> !Active(hw.outputs, sense, row, c)
        invariant hw.trace == old(hw.trace) + ScanTrace(hw.outputs, row)
                              + IfOutput(RowPin(row), hw.outputs, Write(RowPin(row), true))
      {
        var readOk, level := hw.ReadData(ColumnPin(column), sense(row, column));
        if level {
          driven := hw.WriteData(RowPin(row), false);
          StrobeAppends(old(hw.trace), hw.outputs, row);
          ScanFinds(hw.outputs, sense, row, column);
          hit := true;
          return;
        }
        column := column + 1;
      }
      driven := hw.WriteData(RowPin(row), false);
      StrobeAppends(old(hw.trace), hw.outputs, row);
      row := row + 1;
    }
    hit := false;
  }

  /** The character of the pressed key, or 0 when none is pressed. */
  method GetChar(hw: Board, sense: (nat, nat) -> bool) returns (key: char)
    modifies hw`trace
    ensures key == KeyOf(Scan(hw.outputs, sense, 0))
    ensures hw.trace == old(hw.trace) + ScanTrace(hw.outputs, RowsDriven(Scan(hw.outputs, sense, 0)))
  {
    var hit, row, column := MatrixRead(hw, sense);
    if hit {
      key := Keypad[row][column];
    } else {
      key := '\0';
    }
  }
}
