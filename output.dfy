/** `Output`: normalises a result set (`_unfold`) and renders it as JSON or
    as a Markdown report (`_md`, `_md_unfold_to_list`, `render`). */
module Reports {
  import opened Common
  import opened Strings
  import opened Results

  /** `json.loads` on captured text: the fields of the JSON object it
      denotes, or None when it raises `JSONDecodeError`. */
  type Parser = string -> Option<seq<Field>>

  // ---------------------------------------------------------------------
  // `_unfold`
  // ---------------------------------------------------------------------

  /** `[x for x in records if x["out"]]`. */
  function Kept(rs: seq<Record>): seq<Record>
  {
    if rs == [] then []
    else
      var last := rs[|rs| - 1];
      Kept(rs[..|rs| - 1]) + (if Truthy(last.out) then [last] else [])
  }

  /** The filter keeps exactly the records with a truthy `out`, in their
      order. */
  lemma {:induction false} KeptFacts(rs: seq<Record>)
    ensures IsSubsequence(Kept(rs), rs)
    ensures forall e :: e in Kept(rs) <==> e in rs && Truthy(e.out)
    decreases |rs|
  {
    if rs != [] {
      var init, last := rs[..|rs| - 1], rs[|rs| - 1];
      KeptFacts(init);
      assert rs == init + [last];
      assert rs[..|rs| - 1] == init;
      var k := Kept(rs);
      if Truthy(last.out) {
        assert k == Kept(init) + [last];
        assert k[..|k| - 1] == Kept(init);
        assert k[|k| - 1] == last;
        assert IsSubsequence(k[..|k| - 1], rs[..|rs| - 1]);
      } else {
        assert k == Kept(init);
        assert IsSubsequence(k, rs[..|rs| - 1]);
      }
    }
  }

  /** The filter keeps every copy of a record with a truthy `out` and no
      copy of any other. */
  lemma {:induction false} KeptCounts(rs: seq<Record>)
    ensures forall e :: multiset(Kept(rs))[e] == if Truthy(e.out) then multiset(rs)[e] else 0
    decreases |rs|
  {
    if rs != [] {
      var init, last := rs[..|rs| - 1], rs[|rs| - 1];
      KeptCounts(init);
      assert rs == init + [last];
      assert multiset(rs) == multiset(init) + multiset{last};
      if Truthy(last.out) {
        assert multiset(Kept(rs)) == multiset(Kept(init)) + multiset{last};
      } else {
        assert Kept(rs) == Kept(init);
      }
    }
  }

  /** What the inner loop of `_unfold` does to one record: a dictionary is
      left alone, a text that parses becomes the parsed object, any other
      text stays as it is. */
  function Normalise(e: Record, parse: Parser): (r: Record)
    ensures r.version == e.version && r.ret == e.ret
    ensures !e.out.Text? ==> r == e
    ensures e.out.Text? && parse(e.out.text).None? ==> r == e
    ensures e.out.Text? && parse(e.out.text).Some? ==> r.out == Structured(parse(e.out.text).value)
  {
    match e.out
    case Text(t) =>
      (match parse(t)
       case Some(data) => e.(out := Structured(data))
       case None => e)
    case _ => e
  }

  function NormaliseAll(rs: seq<Record>, parse: Parser): (r: seq<Record>)
    ensures |r| == |rs|
    ensures forall i :: 0 <= i < |rs| ==> r[i] == Normalise(rs[i], parse)
  {
    seq(|rs|, i requires 0 <= i < |rs| => Normalise(rs[i], parse))
  }

  /** No record of the list is without output. */
  predicate AllPresent(rs: seq<Record>)
  {
    forall e :: e in rs ==> e.out != Missing
  }

  /** No record of the result set is without output. */
  predicate NoMissing(runs: seq<Group>)
  {
    forall g :: g in runs ==> AllPresent(g.records)
  }

  /** One list after `_unfold`. */
  function UnfoldRecords(rs: seq<Record>, parse: Parser): (r: seq<Record>)
    ensures AllPresent(r)
  {
    KeptFacts(rs);
    assert forall j :: 0 <= j < |Kept(rs)| ==> Kept(rs)[j] in Kept(rs);
    NormaliseAll(Kept(rs), parse)
  }

  /** The whole result set after `_unfold`: the same keys in the same
      order, each with its list filtered and normalised. */
  function Unfolded(runs: seq<Group>, parse: Parser): (r: seq<Group>)
    ensures |r| == |runs|
    ensures forall i :: 0 <= i < |runs| ==> r[i].name == runs[i].name
    ensures NoMissing(r)
  {
    seq(|runs|, i requires 0 <= i < |runs| => Group(runs[i].name, UnfoldRecords(runs[i].records, parse)))
  }

  /** Every record left after `_unfold` comes, in order, from a record whose
      `out` was truthy, keeps its `version` and `ret`, and no record with a
      truthy `out` is dropped. */
  lemma UnfoldRetained(rs: seq<Record>, parse: Parser)
    ensures var r := UnfoldRecords(rs, parse);
            exists kept: seq<Record> ::
              && IsSubsequence(kept, rs) && |kept| == |r|
              && (forall e :: e in kept <==> e in rs && Truthy(e.out))
              && (forall e :: multiset(kept)[e] == if Truthy(e.out) then multiset(rs)[e] else 0)
              && (forall i :: 0 <= i < |r| ==>
                    r[i] == Normalise(kept[i], parse) && r[i].version == kept[i].version && r[i].ret == kept[i].ret)
  {
    KeptFacts(rs);
    KeptCounts(rs);
    var kept := Kept(rs);
    assert IsSubsequence(kept, rs);
  }

  /** The filter runs before the parse, so a non-empty text that parses to
      an empty object survives as an empty dictionary. */
  lemma EmptyObjectSurvives(parse: Parser)
    requires parse("{}") == Some([])
    ensures UnfoldRecords([Record("4.1", Text("{}"), 0)], parse) == [Record("4.1", Structured([]), 0)]
    ensures !Truthy(UnfoldRecords([Record("4.1", Text("{}"), 0)], parse)[0].out)
  {
    var e := Record("4.1", Text("{}"), 0);
    OneRecordKept(e, parse);
    assert Normalise(e, parse) == Record("4.1", Structured([]), 0);
  }

  /** A list of one record that has an output. */
  lemma OneRecordKept(e: Record, parse: Parser)
    requires Truthy(e.out)
    ensures UnfoldRecords([e], parse) == [Normalise(e, parse)]
  {
    assert [e][..0] == [];
    assert Kept([e]) == [e];
  }

  /** No text retained by the filter parses to an empty object. */
  predicate NoEmptyObjects(rs: seq<Record>, parse: Parser)
  {
    forall j :: 0 <= j < |rs| && rs[j].out.Text? ==> parse(rs[j].out.text) != Some([])
  }

  lemma {:induction false} KeptOfNormalised(rs: seq<Record>, parse: Parser)
    requires forall j :: 0 <= j < |rs| ==> Truthy(rs[j].out)
    requires NoEmptyObjects(rs, parse)
    ensures Kept(NormaliseAll(rs, parse)) == NormaliseAll(rs, parse)
    decreases |rs|
  {
    if rs != [] {
      var init := rs[..|rs| - 1];
      KeptOfNormalised(init, parse);
      var n := NormaliseAll(rs, parse);
      assert n[..|n| - 1] == NormaliseAll(init, parse);
      assert Truthy(n[|n| - 1].out);
      assert n == n[..|n| - 1] + [n[|n| - 1]];
    }
  }

  lemma NormaliseTwice(e: Record, parse: Parser)
    ensures Normalise(Normalise(e, parse), parse) == Normalise(e, parse)
  {
  }

  /** Normalising a result set that was already normalised, as reloading a
      saved JSON report with `-j` does, changes nothing, provided no kept
      text parsed to an empty object. */
  lemma UnfoldIdempotent(rs: seq<Record>, parse: Parser)
    requires NoEmptyObjects(Kept(rs), parse)
    ensures UnfoldRecords(UnfoldRecords(rs, parse), parse) == UnfoldRecords(rs, parse)
  {
    var k := Kept(rs);
    KeptFacts(rs);
    assert forall j :: 0 <= j < |k| ==> k[j] in k;
    var once := NormaliseAll(k, parse);
    KeptOfNormalised(k, parse);
    assert Kept(once) == once;
    forall j | 0 <= j < |once| ensures Normalise(once[j], parse) == once[j] {
      NormaliseTwice(k[j], parse);
    }
  }

  // ---------------------------------------------------------------------
  // `_md_unfold_to_list`
  // ---------------------------------------------------------------------

  /** `"* {} = {}".format(k, v)`. */
  function FieldLine(f: Field): string
  {
    "* " + f.key + " = " + f.value
  }

  /** `{k: v for (k, v) in values.items() if k != "_"}`. */
  function Visible(fields: seq<Field>): seq<Field>
  {
    if fields == [] then []
    else (if fields[0].key == "_" then [] else [fields[0]]) + Visible(fields[1..])
  }

  function Lines(fields: seq<Field>): (r: seq<string>)
    ensures |r| == |Visible(fields)|
    ensures forall i :: 0 <= i < |r| ==> r[i] == FieldLine(Visible(fields)[i])
  {
    var v := Visible(fields);
    seq(|v|, i requires 0 <= i < |v| => FieldLine(v[i]))
  }

  /** `_md_unfold_to_list(values)`. */
  function BulletList(fields: seq<Field>): string
  {
    Join("\n", Lines(fields))
  }

  /** The filter keeps every field but `"_"`, in order. */
  lemma {:induction false} VisibleFacts(fields: seq<Field>)
    ensures forall f :: f in Visible(fields) <==> f in fields && f.key != "_"
    ensures forall i :: 0 <= i < |Visible(fields)| ==> Visible(fields)[i].key != "_"
    decreases |fields|
  {
    if fields != [] {
      VisibleFacts(fields[1..]);
      assert fields == [fields[0]] + fields[1..];
    }
  }

  /** A line is in the list exactly when it is the `* k = v` line of a
      field whose key is not `"_"`. */
  lemma LinesMembership(fields: seq<Field>)
    ensures forall l :: l in Lines(fields) <==>
              exists f :: f in fields && f.key != "_" && l == FieldLine(f)
  {
    VisibleFacts(fields);
    var v := Visible(fields);
    var r := Lines(fields);
    forall l | l in r ensures exists f :: f in fields && f.key != "_" && l == FieldLine(f) {
      var i :| 0 <= i < |r| && r[i] == l;
      assert v[i] in v;
    }
    forall l | exists f :: f in fields && f.key != "_" && l == FieldLine(f) ensures l in r {
      var f :| f in fields && f.key != "_" && l == FieldLine(f);
      assert f in v;
      var i :| 0 <= i < |v| && v[i] == f;
      assert r[i] == l;
    }
  }

  lemma {:induction false} VisibleAppend(a: seq<Field>, b: seq<Field>)
    ensures Visible(a + b) == Visible(a) + Visible(b)
    decreases |a|
  {
    if a != [] {
      VisibleAppend(a[1..], b);
      assert (a + b)[1..] == a[1..] + b;
      assert (a + b)[0] == a[0];
    } else {
      assert a + b == b;
    }
  }

  /** The `"_"` sentinel that ends the example program's JSON object adds
      nothing to the list. */
  lemma SentinelIgnored(fields: seq<Field>, v: string)
    ensures BulletList(fields + [Field("_", v)]) == BulletList(fields)
  {
    VisibleAppend(fields, [Field("_", v)]);
    assert Visible([Field("_", v)]) == [];
    assert Visible(fields) + [] == Visible(fields);
  }

  /** Read back line by line, the list gives one `* k = v` line per field
      other than `"_"`, in order (when no key or value holds a newline). */
  lemma BulletListLines(fields: seq<Field>)
    requires Visible(fields) != []
    requires forall f :: f in fields ==> '\n' !in f.key && '\n' !in f.value
    ensures Split(BulletList(fields), '\n') == Lines(fields)
  {
    var v := Visible(fields);
    VisibleFacts(fields);
    var lines := Lines(fields);
    forall i | 0 <= i < |lines| ensures '\n' !in lines[i] {
      assert v[i] in fields;
      assert lines[i] == "* " + v[i].key + " = " + v[i].value;
    }
    SplitJoin(lines, '\n');
  }

  /** An object that ends with the `"_"` sentinel key: that key is omitted. */
  lemma LatencyExample()
    ensures BulletList([Field("latency_ms", "12"), Field("_", "internal")]) == "* latency_ms = 12"
  {
    var fs := [Field("latency_ms", "12"), Field("_", "internal")];
    assert fs[1..][1..] == [];
    assert Visible(fs) == [Field("latency_ms", "12")];
  }

  // ---------------------------------------------------------------------
  // `_md`
  // ---------------------------------------------------------------------

  /** `"# {}\n\n".format(m)`. */
  function Heading(name: string): string
  {
    "# " + name + "\n\n"
  }

  /** `"## {}\n\n".format(version)`. */
  function SubHeading(version: string): string
  {
    "## " + version + "\n\n"
  }

  /** `"```\n{}\n```\n".format(out)`: a text output in a fenced block. */
  function Fenced(text: string): string
  {
    "```\n" + text + "\n```\n"
  }

  /** An object output: its bullet list and a blank line. */
  function Bullets(fields: seq<Field>): string
  {
    BulletList(fields) + "\n\n"
  }

  /** The body of one record's section: a fenced block for a text, the
      bullet list for an object. */
  function Body(o: Out): string
    requires o != Missing
  {
    if o.Text? then Fenced(o.text) else Bullets(o.fields)
  }

  /** The text the inner loop of `_md` appends for one record. */
  function Section(e: Record): string
    requires e.out != Missing
  {
    SubHeading(e.version) + Body(e.out)
  }

  function Sections(rs: seq<Record>): string
    requires AllPresent(rs)
  {
    Concat(rs, Section)
  }

  /** The text the outer loop of `_md` appends for one implementation. */
  function Block(g: Group): string
    requires AllPresent(g.records)
  {
    Heading(g.name) + Sections(g.records)
  }

  /** `_md()`. */
  function Markdown(runs: seq<Group>): string
    requires NoMissing(runs)
  {
    Concat(runs, Block)
  }

  /** The report is the blocks of the implementations in key order, each
      the heading `# name` followed by the sections of its records in order;
      the report of two result sets one after the other is the two reports
      one after the other. */
  lemma MarkdownFront(runs: seq<Group>)
    requires NoMissing(runs) && runs != []
    ensures Markdown(runs) == Heading(runs[0].name) + Sections(runs[0].records) + Markdown(runs[1..])
  {
    ConcatFront(runs, Block);
  }

  lemma MarkdownAppend(a: seq<Group>, b: seq<Group>)
    requires NoMissing(a) && NoMissing(b)
    ensures NoMissing(a + b) && Markdown(a + b) == Markdown(a) + Markdown(b)
  {
    ConcatAppend(a, b, Block);
  }

  /** Every implementation gets its `# name` heading and every record its
      `## version` heading: rendering loses no entry. */
  lemma HeadingsOccur(runs: seq<Group>, i: nat, j: nat)
    requires NoMissing(runs)
    requires i < |runs|
    ensures Occurs(Heading(runs[i].name), Markdown(runs))
    ensures j < |runs[i].records| ==> Occurs(SubHeading(runs[i].records[j].version), Markdown(runs))
  {
    var g := runs[i];
    var m := Markdown(runs);
    ConcatOccurs(runs, i, Block);
    OccursPrefix(Heading(g.name), Sections(g.records));
    OccursTransitive(Heading(g.name), Block(g), m);
    if j < |g.records| {
      var e := g.records[j];
      ConcatOccurs(g.records, j, Section);
      OccursSuffix(Heading(g.name), Sections(g.records));
      OccursPrefix(SubHeading(e.version), Body(e.out));
      OccursTransitive(SubHeading(e.version), Section(e), Sections(g.records));
      OccursTransitive(SubHeading(e.version), Sections(g.records), Block(g));
      OccursTransitive(SubHeading(e.version), Block(g), m);
    }
  }

  /** A saved one-record report reloaded with `-j`: `{"openmpi": [{"version": "4.1", "out":
      "{\"x\":1}", "ret": 0}]}` rendered as Markdown. */
  lemma ReloadExample(parse: Parser)
    requires parse("{\"x\":1}") == Some([Field("x", "1")])
    ensures var runs := Unfolded([Group("openmpi", [Record("4.1", Text("{\"x\":1}"), 0)])], parse);
            Markdown(runs) == "# openmpi\n\n## 4.1\n\n* x = 1\n\n"
  {
    var r := Record("4.1", Structured([Field("x", "1")]), 0);
    ReloadUnfolds(parse);
    ReloadRenders(r);
  }

  lemma ReloadUnfolds(parse: Parser)
    requires parse("{\"x\":1}") == Some([Field("x", "1")])
    ensures Unfolded([Group("openmpi", [Record("4.1", Text("{\"x\":1}"), 0)])], parse)
         == [Group("openmpi", [Record("4.1", Structured([Field("x", "1")]), 0)])]
  {
    OneRecordUnfolds("openmpi", Record("4.1", Text("{\"x\":1}"), 0), parse);
  }

  /** A result set of one implementation with one record that has an
      output. */
  lemma OneRecordUnfolds(name: string, e: Record, parse: Parser)
    requires Truthy(e.out)
    ensures Unfolded([Group(name, [e])], parse) == [Group(name, [Normalise(e, parse)])]
  {
    OneRecordKept(e, parse);
  }

  lemma ReloadRenders(r: Record)
    requires r == Record("4.1", Structured([Field("x", "1")]), 0)
    ensures Markdown([Group("openmpi", [r])]) == "# openmpi\n\n## 4.1\n\n* x = 1\n\n"
  {
    OneRecordReport("openmpi", r);
    var h, sh, b := Heading("openmpi"), SubHeading("4.1"), Bullets([Field("x", "1")]);
    assert Markdown([Group("openmpi", [r])]) == h + sh + b;
    ReloadBullets();
    ReloadText(h, sh, b);
  }

  /** A literal string equality, kept apart so the solver proves it alone. */
  lemma ReloadText(h: string, sh: string, b: string)
    requires h == "# openmpi\n\n" && sh == "## 4.1\n\n" && b == "* x = 1\n\n"
    ensures h + sh + b == "# openmpi\n\n## 4.1\n\n* x = 1\n\n"
  {
  }

  lemma ReloadBullets()
    ensures Bullets([Field("x", "1")]) == "* x = 1\n\n"
  {
    OneFieldList(Field("x", "1"));
    assert FieldLine(Field("x", "1")) == "* x = 1";
  }

  /** The list of one visible field is its line. */
  lemma OneFieldList(f: Field)
    requires f.key != "_"
    ensures BulletList([f]) == FieldLine(f)
  {
    assert [f][1..] == [];
    assert Visible([f]) == [f];
    assert Lines([f]) == [FieldLine(f)];
  }

  /** The report of one implementation with one record. */
  lemma OneRecordReport(name: string, e: Record)
    requires e.out != Missing
    ensures Markdown([Group(name, [e])]) == Heading(name) + SubHeading(e.version) + Body(e.out)
  {
    ConcatSingle(e, Section);
    assert AllPresent([e]);
    ConcatSingle(Group(name, [e]), Block);
  }

  class Output {
    const format: string
    var runs: seq<Group>
    /** What has been written to the output stream. */
    var written: string

    /** After `_unfold` every record has an output, which `_md` relies on. */
    predicate Valid()
      reads this
    {
      NoMissing(runs)
    }

    /** `Output(f, runs, out)`: stores the result set and normalises it. */
    constructor (f: string, runs: seq<Group>, parse: Parser)
      ensures format == f && this.runs == Unfolded(runs, parse)
      ensures written == "" && Valid()
    {
      format := f;
      this.runs := runs;
      written := "";
      new;
      Unfold(parse);
    }

    /** `_unfold()`: in every list, drops the records whose `out` is falsy,
        then turns each text that parses into the parsed object. */
    method Unfold(parse: Parser)
      modifies this`runs
      ensures runs == Unfolded(old(runs), parse)
      ensures Valid()
    {
      ghost var original := runs;
      for i := 0 to |runs|
        invariant |runs| == |original|
        invariant forall k :: 0 <= k < i ==> runs[k] == Unfolded(original, parse)[k]
        invariant forall k :: i <= k < |runs| ==> runs[k] == original[k]
      {
        var entries := Kept(runs[i].records);
        KeptFacts(runs[i].records);
        entries := NormaliseEntries(entries, parse);
        runs := runs[i := Group(runs[i].name, entries)];
      }
      assert runs == Unfolded(original, parse);
    }

    /** The inner loop of `_unfold`: each text output that parses is
        replaced by the parsed object, in place in the list. */
    static method NormaliseEntries(entries: seq<Record>, parse: Parser) returns (r: seq<Record>)
      requires AllPresent(entries)
      ensures r == NormaliseAll(entries, parse)
    {
      r := entries;
      for j := 0 to |r|
        invariant |r| == |entries|
        invariant forall k :: 0 <= k < j ==> r[k] == Normalise(entries[k], parse)
        invariant forall k :: j <= k < |r| ==> r[k] == entries[k]
      {
        if r[j].out.Structured? {
          continue;
        }
        assert r[j] in entries;
        var parsed := parse(r[j].out.text);
        if parsed.Some? {
          r := r[j := r[j].(out := Structured(parsed.value))];
        }
      }
    }

    /** `_md()`. */
    method Md() returns (s: string)
      requires Valid()
      ensures s == Markdown(runs)
    {
      s := "";
      for i := 0 to |runs|
        invariant s == Concat(runs[..i], Block)
      {
        ConcatSnoc(runs, i, Block);
        var sections := MdSections(runs[i].records);
        s := s + (Heading(runs[i].name) + sections);
      }
      ConcatAll(runs, Block);
    }

    /** The inner loop of `_md`: the sections of one implementation's
        records. */
    static method MdSections(entries: seq<Record>) returns (s: string)
      requires AllPresent(entries)
      ensures s == Sections(entries)
    {
      s := "";
      for j := 0 to |entries|
        invariant s == Concat(entries[..j], Section)
      {
        ConcatSnoc(entries, j, Section);
        var body;
        if entries[j].out.Text? {
          body := Fenced(entries[j].out.text);
        } else {
          body := Bullets(entries[j].out.fields);
        }
        s := s + (SubHeading(entries[j].version) + body);
      }
      ConcatAll(entries, Section);
    }

    /** `render()`: writes the JSON dump (`json.dumps`, an oracle here) for
        `"json"`, the Markdown report for `"md"`, nothing otherwise. */
    method Render(dumps: seq<Group> -> string)
      requires Valid()
      modifies this`written
      ensures format == "json" ==> written == old(written) + dumps(runs)
      ensures format == "md" ==> written == old(written) + Markdown(runs)
      ensures format != "json" && format != "md" ==> written == old(written)
    {
      if format == "json" {
        written := written + dumps(runs);
      } else if format == "md" {
        var text := Md();
        written := written + text;
      } else {
        // unknown formats write nothing
      }
    }
  }
}
