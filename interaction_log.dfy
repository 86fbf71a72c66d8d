/** The interaction log `stress_logs.csv`: a flat file that is absent until the
    first entry, then holds a header line followed by one line per entry in
    write order. An entry is appended without rewriting the header; reading
    an absent file is "no data", distinct from any list of rows. */
module InteractionLog {
  import opened Wrappers
  import opened Stress

  /** The four self-reported moods of the mood selector. */
  datatype Mood = Calm | Meh | Stressed | Overwhelmed

  /** The text the mood selector shows and the log stores: an emoji, a space
      and a word. */
  function MoodLabel(m: Mood): (l: string)
    ensures |l| > 2 && l[1] == ' '
  {
    match m
    case Calm => ['\U{1F60C}', ' '] + "Calm"
    case Meh => ['\U{1F610}', ' '] + "Meh"
    case Stressed => ['\U{1F62B}', ' '] + "Stressed"
    case Overwhelmed => ['\U{1F62D}', ' '] + "Overwhelmed"
  }

  /** The stored label names the mood: the four labels start with four
      different emoji. */
  lemma MoodLabelInjective(a: Mood, b: Mood)
    requires MoodLabel(a) == MoodLabel(b)
    ensures a == b
  {
    assert MoodLabel(a)[0] == MoodLabel(b)[0];
  }

  /** One entry: the date as `%Y-%m-%d`, the mood, the classified level, the
      description as typed and the optional journal text. */
  datatype Row = Row(date: string, mood: Mood, level: Level, text: string, journal: string)

  const Columns: seq<string> := ["date", "mood", "stress_level", "text", "journal"]

  datatype Line = HeaderLine(columns: seq<string>) | RowLine(row: Row)

  /** The file on disk; `None` while it does not exist. */
  type File = Option<seq<Line>>

  /** Every file the application can produce: the header first and only
      there, then at least one row. */
  predicate WellFormed(f: File) {
    match f
    case None => true
    case Some(lines) =>
      |lines| >= 2 && lines[0] == HeaderLine(Columns) &&
      forall i :: 1 <= i < |lines| ==> lines[i].RowLine?
  }

  function RowLines(rows: seq<Row>): seq<Line> {
    seq(|rows|, i requires 0 <= i < |rows| => RowLine(rows[i]))
  }

  /** The effect of `log_entry` on the file: create it with the header and
      the row, or append the row alone. */
  function WriteRow(f: File, row: Row): (g: File)
    requires WellFormed(f)
    ensures WellFormed(g) && g.Some?
    ensures f.None? ==> g.value == [HeaderLine(Columns), RowLine(row)]
    ensures f.Some? ==> |g.value| == |f.value| + 1 && g.value[..|f.value|] == f.value
    ensures g.value[|g.value| - 1] == RowLine(row)
  {
    match f
    case None => Some([HeaderLine(Columns), RowLine(row)])
    case Some(lines) => Some(lines + [RowLine(row)])
  }

  /** What a read of the file gives: no file, or its rows. */
  datatype LogView = NoData | Data(rows: seq<Row>)

  /** `pd.read_csv` guarded by `os.path.exists`. */
  function Read(f: File): (v: LogView)
    requires WellFormed(f)
    ensures v.NoData? <==> f.None?
    ensures v.Data? ==> |v.rows| == |f.value| - 1 >= 1
    ensures v.Data? ==> forall i :: 0 <= i < |v.rows| ==> RowLine(v.rows[i]) == f.value[i + 1]
  {
    match f
    case None => NoData
    case Some(lines) => Data(seq(|lines| - 1, i requires 0 <= i < |lines| - 1 => lines[i + 1].row))
  }

  /** The rows recorded so far, none for an absent file. */
  function Recorded(v: LogView): seq<Row> {
    match v
    case NoData => []
    case Data(rows) => rows
  }

  /** A well-formed file is determined by what reading it gives. */
  lemma ReadInjective(f: File, g: File)
    requires WellFormed(f) && WellFormed(g) && Read(f) == Read(g)
    ensures f == g
  {
    if f.Some? {
      var a, b := f.value, g.value;
      assert |a| == |b|;
      forall i | 0 <= i < |a| ensures a[i] == b[i] {
        if i > 0 {
          assert a[i] == RowLine(Read(f).rows[i - 1]);
        }
      }
      assert a == b;
    }
  }

  /** Append/read round trip: the rows read after a write are the rows read
      before it, then the new row. */
  lemma WriteThenRead(f: File, row: Row)
    requires WellFormed(f)
    ensures Read(WriteRow(f, row)) == Data(Recorded(Read(f)) + [row])
  {
    var g := WriteRow(f, row);
    var expected := Recorded(Read(f)) + [row];
    var got := Read(g).rows;
    assert |got| == |expected|;
    forall i | 0 <= i < |got| ensures got[i] == expected[i] {
      assert RowLine(got[i]) == g.value[i + 1];
      if i < |got| - 1 {
        assert f.Some? && g.value[i + 1] == f.value[i + 1];
        assert RowLine(Read(f).rows[i]) == f.value[i + 1];
      }
    }
  }

  /** The first entry creates the file, which then reads as that entry. */
  lemma FirstEntry(row: Row)
    ensures WriteRow(None, row) == Some([HeaderLine(Columns), RowLine(row)])
    ensures Read(WriteRow(None, row)) == Data([row])
  {
    WriteThenRead(None, row);
    assert Recorded(Read(None)) + [row] == [row];
  }

  /** The file after a sequence of entries, in order. */
  function WriteAll(f: File, rows: seq<Row>): (g: File)
    requires WellFormed(f)
    ensures WellFormed(g)
    decreases |rows|
  {
    if rows == [] then f else WriteAll(WriteRow(f, rows[0]), rows[1..])
  }

  /** Every entry is read back after any number of later entries. */
  lemma {:induction false} WriteAllThenRead(f: File, rows: seq<Row>)
    requires WellFormed(f)
    requires rows != [] || f.Some?
    ensures Read(WriteAll(f, rows)) == Data(Recorded(Read(f)) + rows)
    decreases |rows|
  {
    var before := Recorded(Read(f));
    if rows == [] {
      assert before + rows == before;
    } else {
      var g := WriteRow(f, rows[0]);
      assert WriteAll(f, rows) == WriteAll(g, rows[1..]);
      WriteThenRead(f, rows[0]);
      var middle := Recorded(Read(g));
      assert middle == before + [rows[0]];
      WriteAllThenRead(g, rows[1..]);
      assert middle + rows[1..] == before + rows;
    }
  }

  /** Starting without a file, the header is written once: after n entries the
      file is the header and the n rows in write order; with no entry there is
      still no file. */
  lemma WritesFromAbsent(rows: seq<Row>)
    ensures rows == [] ==> WriteAll(None, rows) == None && Read(WriteAll(None, rows)) == NoData
    ensures rows != [] ==> WriteAll(None, rows) == Some([HeaderLine(Columns)] + RowLines(rows))
  {
    if rows != [] {
      WriteAllThenRead(None, rows);
      var h := Some([HeaderLine(Columns)] + RowLines(rows));
      assert WellFormed(h);
      assert Read(h).rows == rows;
      ReadInjective(WriteAll(None, rows), h);
    }
  }

  /** The header line is the first line of the file and no other. */
  lemma HeaderOnlyFirst(f: File, i: nat)
    requires WellFormed(f) && f.Some? && i < |f.value|
    ensures f.value[i].HeaderLine? <==> i == 0
  {
  }

  /** `s[::-1]`. */
  function Reverse<T>(s: seq<T>): (r: seq<T>)
    ensures |r| == |s|
    ensures forall k :: 0 <= k < |s| ==> r[k] == s[|s| - 1 - k]
  {
    if s == [] then [] else [s[|s| - 1]] + Reverse(s[..|s| - 1])
  }

  lemma ReverseReverse<T>(s: seq<T>)
    ensures Reverse(Reverse(s)) == s
  {
    assert forall k :: 0 <= k < |s| ==> Reverse(Reverse(s))[k] == s[k];
  }

  /** The journal tab: the rows, most recent first. */
  function JournalView(v: LogView): (j: LogView)
    ensures j.NoData? <==> v.NoData?
    ensures j.Data? ==> Reverse(j.rows) == v.rows
  {
    match v
    case NoData => NoData
    case Data(rows) => ReverseReverse(rows); Data(Reverse(rows))
  }

  /** The entry just written heads the journal. */
  lemma JournalShowsLatestFirst(f: File, row: Row)
    requires WellFormed(f)
    ensures JournalView(Read(WriteRow(f, row))).rows[0] == row
  {
    WriteThenRead(f, row);
  }

  /** The log file object the application writes through. */
  class LogFile {
    var file: File

    ghost predicate Valid()
      reads this
    {
      WellFormed(file)
    }

    /** No log has been written yet. */
    constructor Absent()
      ensures Valid() && file == None
    {
      file := None;
    }

    /** `log_entry(date, mood, level, user_input, journal)`. */
    method LogEntry(date: string, mood: Mood, level: Level, text: string, journal: string)
      requires Valid()
      modifies this
      ensures Valid()
      ensures file == WriteRow(old(file), Row(date, mood, level, text, journal))
    {
      var row := Row(date, mood, level, text, journal);
      if file.Some? {
        file := Some(file.value + [RowLine(row)]);
      } else {
        file := Some([HeaderLine(Columns), RowLine(row)]);
      }
    }

    /** What the mood-tracker and journal tabs read. */
    function Contents(): (v: LogView)
      reads this
      requires Valid()
      ensures v.NoData? <==> file.None?
    {
      Read(file)
    }
  }
}
