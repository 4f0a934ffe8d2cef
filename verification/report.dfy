/**
  The report the script writes: a title naming the date, a rule of forty `=`, then one
  block per dictionary key in insertion order. Each write call is one element of the
  result; the newline each call ends with is not part of the element.
 */
module Report {
  import opened Options
  import opened Elements
  import opened Aggregation

  /** First line of the report. */
  function Title(date: string): string {
    "Weather forecast for " + date
  }

  /** `n` copies of `c`, as Python's `c * n`. */
  function Repeat(c: char, n: nat): (s: string)
    ensures |s| == n
    ensures forall i :: 0 <= i < n ==> s[i] == c
  {
    if n == 0 then [] else [c] + Repeat(c, n - 1)
  }

  /** Second line of the report. */
  function Rule(): string {
    Repeat('=', 40)
  }

  /** The second line is forty `=` characters. */
  lemma RuleShape()
    ensures |Rule()| == 40 && forall i :: 0 <= i < |Rule()| ==> Rule()[i] == '='
  {
  }

  /** First line of the block for key `k`. */
  function BlockTitle(k: Attr, r: Reading): string {
    "From " + Show(k) + " to " + Show(r.toTime) + ":"
  }

  function Label(f: Field): string {
    match f
    case Temperature => "Temperature"
    case Precipitation => "Precipitation"
    case Humidity => "Humidity"
    case WindSpeed => "Wind Speed"
  }

  /** Everything on a field line before the value. */
  function Lead(f: Field): string {
    "  " + Label(f) + ": "
  }

  function FieldLine(f: Field, v: string): string {
    Lead(f) + v
  }

  /** `[f]` when `r` holds field `f`, else nothing. */
  function Opt(f: Field, r: Reading): seq<Field> {
    if Get(r, f).Some? then [f] else []
  }

  /** The field lines for the fields `fs`, all of which `r` holds. */
  function LinesFor(r: Reading, fs: seq<Field>): (ls: seq<string>)
    requires forall f :: f in fs ==> Get(r, f).Some?
    ensures |ls| == |fs|
    ensures forall i :: 0 <= i < |fs| ==> ls[i] == FieldLine(fs[i], Get(r, fs[i]).value)
  {
    if fs == [] then [] else [FieldLine(fs[0], Get(r, fs[0]).value)] + LinesFor(r, fs[1..])
  }

  /** The line for field `f` when `r` holds it, written as the script writes it. */
  function OptLine(f: Field, r: Reading): seq<string> {
    match Get(r, f)
    case Some(v) => [FieldLine(f, v)]
    case None => []
  }

  lemma LinesForAppend(r: Reading, a: seq<Field>, b: seq<Field>)
    requires forall f :: f in a + b ==> Get(r, f).Some?
    ensures LinesFor(r, a + b) == LinesFor(r, a) + LinesFor(r, b)
  {
  }

  /** The non-null fields of `r`, in report order. */
  function Present(r: Reading): (fs: seq<Field>)
    ensures forall f :: f in fs <==> Get(r, f).Some?
    ensures forall i, j :: 0 <= i < j < |fs| ==> Rank(fs[i]) < Rank(fs[j])
  {
    Opt(Temperature, r) + Opt(Precipitation, r) + Opt(Humidity, r) + Opt(WindSpeed, r)
  }

  /** The field lines of a block, written as the script writes them. */
  function FieldLines(r: Reading): seq<string> {
    OptLine(Temperature, r) + OptLine(Precipitation, r) + OptLine(Humidity, r) + OptLine(WindSpeed, r)
  }

  /** One field line per non-null field, in report order, each carrying that field's label and text. */
  lemma FieldLinesInOrder(r: Reading)
    ensures |FieldLines(r)| == |Present(r)|
    ensures forall i :: 0 <= i < |FieldLines(r)| ==>
      FieldLines(r)[i] == FieldLine(Present(r)[i], Get(r, Present(r)[i]).value)
  {
    var ot, op, oh, ow := Opt(Temperature, r), Opt(Precipitation, r), Opt(Humidity, r), Opt(WindSpeed, r);
    LinesForOpt(r, Temperature);
    LinesForOpt(r, Precipitation);
    LinesForOpt(r, Humidity);
    LinesForOpt(r, WindSpeed);
    LinesForAppend(r, ot, op);
    LinesForAppend(r, ot + op, oh);
    LinesForAppend(r, ot + op + oh, ow);
    assert FieldLines(r) == LinesFor(r, Present(r));
  }

  lemma LinesForOpt(r: Reading, f: Field)
    ensures LinesFor(r, Opt(f, r)) == OptLine(f, r)
  {
  }

  /** The block for key `k`: its title, one line per non-null field, a blank line. */
  function Block(k: Attr, r: Reading): seq<string> {
    [BlockTitle(k, r)] + FieldLines(r) + [""]
  }

  /** A block has two lines besides one line per non-null field. */
  lemma BlockLength(k: Attr, r: Reading)
    ensures |Block(k, r)| == 2 + |Present(r)|
  {
    FieldLinesInOrder(r);
  }

  /** A block has its title, one line per non-null field in report order, and a blank line. */
  lemma BlockShape(k: Attr, r: Reading)
    ensures |Block(k, r)| == 2 + |Present(r)|
    ensures Block(k, r)[0] == BlockTitle(k, r) && Block(k, r)[|Block(k, r)| - 1] == ""
    ensures forall i :: 1 <= i < |Block(k, r)| - 1 ==>
      Block(k, r)[i] == FieldLine(Present(r)[i - 1], Get(r, Present(r)[i - 1]).value)
  {
    FieldLinesInOrder(r);
  }

  /** The blocks of the first `n` keys of `t`, in key order. */
  function Blocks(t: Table, n: nat): seq<string>
    requires Valid(t) && n <= |t.keys|
  {
    if n == 0 then []
    else Blocks(t, n - 1) + Block(t.keys[n - 1], t.entries[t.keys[n - 1]])
  }

  /** The whole report for `date` and the dictionary `t`. */
  function Render(date: string, t: Table): (lines: seq<string>)
    requires Valid(t)
    ensures |lines| >= 2 && lines[0] == Title(date) && lines[1] == Rule()
    ensures t.keys == [] ==> |lines| == 2
  {
    [Title(date), Rule()] + Blocks(t, |t.keys|)
  }

  // ----- Line structure -----

  /** Number of non-null fields in the entries of the first `n` keys of `t`. */
  function FieldCount(t: Table, n: nat): nat
    requires Valid(t) && n <= |t.keys|
  {
    if n == 0 then 0
    else FieldCount(t, n - 1) + |Present(t.entries[t.keys[n - 1]])|
  }

  /** The blocks have two lines per key plus one per non-null field. */
  lemma {:induction false} BlocksLength(t: Table, n: nat)
    requires Valid(t) && n <= |t.keys|
    ensures |Blocks(t, n)| == 2 * n + FieldCount(t, n)
  {
    if n > 0 {
      BlocksLength(t, n - 1);
      BlockLength(t.keys[n - 1], t.entries[t.keys[n - 1]]);
    }
  }

  /** The report has the two heading lines, two lines per key and one per non-null field. */
  lemma RenderLength(date: string, t: Table)
    requires Valid(t)
    ensures |Render(date, t)| == 2 + 2 * |t.keys| + FieldCount(t, |t.keys|)
  {
    BlocksLength(t, |t.keys|);
  }

  /** A block title line, recognised by its first five characters. */
  predicate IsTitle(s: string) {
    |s| >= 5 && s[..5] == "From "
  }

  /** The block title lines of `lines`, in order. */
  function Titles(lines: seq<string>): seq<string> {
    if lines == [] then []
    else Titles(lines[..|lines| - 1]) + (if IsTitle(lines[|lines| - 1]) then [lines[|lines| - 1]] else [])
  }

  lemma {:induction false} TitlesAppend(a: seq<string>, b: seq<string>)
    ensures Titles(a + b) == Titles(a) + Titles(b)
  {
    if b == [] {
      assert a + b == a;
    } else {
      var b', x := b[..|b| - 1], b[|b| - 1];
      var tail := if IsTitle(x) then [x] else [];
      assert (a + b)[..|a + b| - 1] == a + b';
      assert (a + b)[|a + b| - 1] == x;
      assert Titles(a + b) == Titles(a + b') + tail;
      TitlesAppend(a, b');
      assert Titles(b) == Titles(b') + tail;
    }
  }

  /** Titles of lines none of which is a title. */
  lemma {:induction false} NoTitles(lines: seq<string>)
    requires forall i :: 0 <= i < |lines| ==> !IsTitle(lines[i])
    ensures Titles(lines) == []
  {
    if lines != [] {
      NoTitles(lines[..|lines| - 1]);
    }
  }

  lemma FieldLineNotTitle(f: Field, v: string)
    ensures !IsTitle(FieldLine(f, v))
  {
    assert FieldLine(f, v)[0] == ' ';
  }

  lemma BlockTitleIsTitle(k: Attr, r: Reading)
    ensures IsTitle(BlockTitle(k, r))
    ensures Titles([BlockTitle(k, r)]) == [BlockTitle(k, r)]
  {
    var s := BlockTitle(k, r);
    assert s[..5] == "From ";
    var one: seq<string> := [s];
    assert one[..0] == [];
  }

  /** A block holds exactly one title line: its first. */
  lemma BlockTitles(k: Attr, r: Reading)
    ensures Titles(Block(k, r)) == [BlockTitle(k, r)]
  {
    var fl := FieldLines(r);
    var body := fl + [""];
    FieldLinesInOrder(r);
    assert Block(k, r) == [BlockTitle(k, r)] + body;
    forall i | 0 <= i < |body|
      ensures !IsTitle(body[i])
    {
      if i < |fl| {
        FieldLineNotTitle(Present(r)[i], Get(r, Present(r)[i]).value);
      }
    }
    NoTitles(body);
    TitlesAppend([BlockTitle(k, r)], body);
    BlockTitleIsTitle(k, r);
  }

  /** The titles the blocks of the first `n` keys of `t` should have, in key order. */
  function TitleList(t: Table, n: nat): seq<string>
    requires Valid(t) && n <= |t.keys|
  {
    if n == 0 then [] else TitleList(t, n - 1) + [BlockTitle(t.keys[n - 1], t.entries[t.keys[n - 1]])]
  }

  lemma {:induction false} TitleListIndex(t: Table, n: nat)
    requires Valid(t) && n <= |t.keys|
    ensures |TitleList(t, n)| == n
    ensures forall i :: 0 <= i < n ==> TitleList(t, n)[i] == BlockTitle(t.keys[i], t.entries[t.keys[i]])
  {
    if n > 0 {
      TitleListIndex(t, n - 1);
    }
  }

  lemma {:induction false} BlocksTitles(t: Table, n: nat)
    requires Valid(t) && n <= |t.keys|
    ensures Titles(Blocks(t, n)) == TitleList(t, n)
  {
    if n > 0 {
      var k := t.keys[n - 1];
      BlocksTitles(t, n - 1);
      TitlesAppend(Blocks(t, n - 1), Block(k, t.entries[k]));
      BlockTitles(k, t.entries[k]);
    }
  }

  lemma HeadingNotTitles(date: string)
    ensures Titles([Title(date), Rule()]) == []
  {
    assert Title(date)[0] == 'W';
    assert Rule()[0] == '=';
    NoTitles([Title(date), Rule()]);
  }

  /** The report has one title line per key, in key order. */
  lemma RenderTitles(date: string, t: Table)
    requires Valid(t)
    ensures |Titles(Render(date, t))| == |t.keys|
    ensures forall i :: 0 <= i < |t.keys| ==>
      Titles(Render(date, t))[i] == BlockTitle(t.keys[i], t.entries[t.keys[i]])
  {
    var head := [Title(date), Rule()];
    BlocksTitles(t, |t.keys|);
    TitleListIndex(t, |t.keys|);
    TitlesAppend(head, Blocks(t, |t.keys|));
    HeadingNotTitles(date);
  }

  // ----- Reading a field line back -----

  predicate HasPrefix(s: string, p: string) {
    |p| <= |s| && s[..|p|] == p
  }

  /** Recognises a field line and returns its field and value text. */
  function ParseFieldLine(s: string): Option<(Field, string)> {
    if HasPrefix(s, Lead(Temperature)) then Some((Temperature, s[|Lead(Temperature)|..]))
    else if HasPrefix(s, Lead(Precipitation)) then Some((Precipitation, s[|Lead(Precipitation)|..]))
    else if HasPrefix(s, Lead(Humidity)) then Some((Humidity, s[|Lead(Humidity)|..]))
    else if HasPrefix(s, Lead(WindSpeed)) then Some((WindSpeed, s[|Lead(WindSpeed)|..]))
    else None
  }

  /** A field line names its field and value unambiguously. */
  lemma FieldLineRoundTrip(f: Field, v: string)
    ensures ParseFieldLine(FieldLine(f, v)) == Some((f, v))
  {
    var s := FieldLine(f, v);
    assert s[..|Lead(f)|] == Lead(f);
    assert s[|Lead(f)|..] == v;
    assert s[2] == Label(f)[0];
  }
}
