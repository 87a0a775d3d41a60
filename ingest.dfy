/**
 * The robust table loader `read_table_safely` (streamlit/app3.py:22-115).
 *
 * pandas (`read_excel`, `read_csv`) and `csv.Sniffer` are not modelled: they
 * are the fields of a `Library` value, arbitrary functions of everything the
 * loader passes them.  What is modelled is the loader's own logic: which
 * reader a file is routed to, the order in which (encoding, separator) pairs
 * are tried, which attempt is accepted, and the shape of the result.
 */
module Ingest {
  import opened Wrappers
  import Text

  type byte = b: int | 0 <= b < 256

  /** An uploaded file: its `name` and the bytes `getvalue()` returns, if it has that method. */
  datatype Upload = Upload(name: string, raw: Option<seq<byte>>)

  /** What a reader is handed: an in-memory copy of the bytes, or the upload object itself. */
  datatype Source = InMemory(bytes: seq<byte>) | Handle(file: Upload)

  /** A parsed table: its column labels and its number of rows. */
  datatype Table = Table(columns: seq<string>, rowCount: nat)

  /** How one `pd.read_csv` call ends: a table, or one of the exceptions `_try` tells apart. */
  datatype CsvOutcome =
    | Parsed(table: Table)
    | EmptyData
    | ParserError(detail: string)
    | DecodeError(detail: string)
    | OtherError(detail: string)

  /** The arguments of one `pd.read_csv` call that vary between calls. */
  datatype CsvCall = CsvCall(source: Source, nrows: Option<nat>, sep: Option<char>, header: Option<nat>, encoding: string)

  /** The library calls the loader makes; their behaviour is not modelled. */
  datatype Library = Library(
    // pd.read_excel(source, nrows=nrows): a table, or the text of the exception
    readExcel: (Source, Option<nat>) -> Result<Table, string>,
    // pd.read_csv(source, nrows=nrows, sep=sep, header=header, encoding=encoding, ...)
    readCsv: CsvCall -> CsvOutcome,
    // csv.Sniffer().sniff(sample).delimiter, sample being the bytes decoded with the encoding; None if it raises
    sniff: (seq<byte>, string) -> Option<char>,
    // csv.Sniffer().has_header(sample); None if it raises
    hasHeader: (seq<byte>, string) -> Option<bool>)

  /** The `diag` dictionary. */
  datatype Diagnostics = Diagnostics(
    name: string,
    sizeBytes: Option<nat>,
    headBytes: Option<seq<byte>>,
    sniffDelimiter: Option<char>,
    sniffHasHeader: Option<bool>)

  /** One `(enc, sep)` pair handed to `_try`. */
  datatype Attempt = Attempt(encoding: string, sep: Option<char>)

  const NoFileMessage: string := "No file provided."
  const PdfMessage: string := "This is a PDF, not a CSV/TSV."
  const UnparsableMessage: string := "Unable to parse the file. Adjust delimiter/header/encoding."
  const ZipFailurePrefix: string := "File looks like Excel (zip) but failed to open: "
  const ExcelFailurePrefix: string := "Failed to read Excel: "
  const EmptyDataMessage: string := "The file appears to be empty or has no recognizable columns."

  /** `b"PK"`, the start of a ZIP container (and so of an .xlsx file). */
  const ZipMagic: seq<byte> := [0x50, 0x4B]
  /** `b"%PDF"`. */
  const PdfMagic: seq<byte> := [0x25, 0x50, 0x44, 0x46]

  /** `raw[:len(p)] == p`. */
  predicate HasPrefix(raw: seq<byte>, p: seq<byte>) {
    |p| <= |raw| && raw[..|p|] == p
  }

  /** `raw[:n]`. */
  function Head(raw: seq<byte>, n: nat): seq<byte> {
    if |raw| <= n then raw else raw[..n]
  }

  /** `name.lower().endswith((".xlsx", ".xls"))`. */
  predicate HasExcelExtension(name: string) {
    var lower := Text.Lower(name);
    Text.EndsWith(lower, ".xlsx") || Text.EndsWith(lower, ".xls")
  }

  /** `sep_map.get(sep_choice, None)`: an unknown choice reads as "auto". */
  function SeparatorFor(choice: string): Option<char> {
    var sepMap := map["auto" := None, "comma (,)" := Some(','), "tab (\\t)" := Some('\t'),
                      "semicolon (;)" := Some(';'), "pipe (|)" := Some('|')];
    if choice in sepMap then sepMap[choice] else None
  }

  /** `hdr`: row 0 holds the header, or there is none. */
  function HeaderRow(choice: string): Option<nat> {
    if choice == "first row is header" then Some(0) else None
  }

  /** `sep_candidates`. */
  function SeparatorCandidates(sep: Option<char>, sniffed: Option<char>): seq<Option<char>> {
    if sep.Some? then [sep] else [sniffed, None]
  }

  /** `enc_candidates`: the chosen encoding first, with no deduplication. */
  function PrimaryEncodings(choice: string): seq<string> {
    [choice, "utf-8-sig", "utf-8", "cp1252", "latin-1"]
  }

  const FallbackEncodings: seq<string> := ["utf-8-sig", "cp1252", "latin-1"]
  const FallbackSeparators: seq<Option<char>> := [Some(','), Some('\t'), Some(';'), Some('|')]

  /** `e` paired with each separator, in order. */
  function Pairs(e: string, seps: seq<Option<char>>): (r: seq<Attempt>)
    ensures |r| == |seps| && forall j :: 0 <= j < |seps| ==> r[j] == Attempt(e, seps[j])
  {
    seq(|seps|, j requires 0 <= j < |seps| => Attempt(e, seps[j]))
  }

  /** Encodings in the outer loop, separators in the inner one. */
  function Cross(encs: seq<string>, seps: seq<Option<char>>): seq<Attempt> {
    if encs == [] then [] else Cross(encs[..|encs| - 1], seps) + Pairs(encs[|encs| - 1], seps)
  }

  /** Everything the CSV attempts of one call share. */
  datatype Context = Context(lib: Library, source: Source, nrows: Option<nat>, header: Option<nat>)

  /** `_try(enc, s)`: the table, or the message for the exception. */
  function Try(ctx: Context, a: Attempt): (r: (Option<Table>, Option<string>))
    ensures r.0.Some? <==> r.1.None?
  {
    match ctx.lib.readCsv(CsvCall(ctx.source, ctx.nrows, a.sep, ctx.header, a.encoding))
    case Parsed(t) => (Some(t), None)
    case EmptyData => (None, Some(EmptyDataMessage))
    case ParserError(e) => (None, Some("Parser error: " + e))
    case DecodeError(e) => (None, Some("Encoding error: " + e))
    case OtherError(e) => (None, Some("Read error: " + e))
  }

  /** The acceptance test after each `_try`: no error, and at least one column. */
  predicate Accepts(ctx: Context, a: Attempt) {
    var (df, err) := Try(ctx, a);
    err.None? && df.Some? && |df.value.columns| > 0
  }

  /** Position of the first accepted attempt of `atts`, or `|atts|`. */
  function FirstAccepted(ctx: Context, atts: seq<Attempt>): (k: nat)
    ensures k <= |atts|
    ensures k < |atts| ==> Accepts(ctx, atts[k])
    ensures forall j :: 0 <= j < k ==> !Accepts(ctx, atts[j])
  {
    if atts == [] then 0
    else if Accepts(ctx, atts[0]) then 0
    else 1 + FirstAccepted(ctx, atts[1..])
  }

  // ---------------------------------------------------------------------------
  // Facts about the candidate order.

  lemma {:induction false} CrossLength(encs: seq<string>, seps: seq<Option<char>>)
    ensures |Cross(encs, seps)| == |encs| * |seps|
  {
    if encs != [] {
      var init := encs[..|encs| - 1];
      CrossLength(init, seps);
      assert |Cross(encs, seps)| == |Cross(init, seps)| + |seps|;
      assert (|encs| - 1) * |seps| + |seps| == |encs| * |seps|;
    }
  }

  /** Attempt number `i * |seps| + j` uses encoding `i` and separator `j`. */
  lemma {:induction false} CrossAt(encs: seq<string>, seps: seq<Option<char>>, i: nat, j: nat)
    requires i < |encs| && j < |seps|
    ensures i * |seps| + j < |Cross(encs, seps)|
    ensures Cross(encs, seps)[i * |seps| + j] == Attempt(encs[i], seps[j])
  {
    var n := |encs|;
    var init := encs[..n - 1];
    var row := Pairs(encs[n - 1], seps);
    assert Cross(encs, seps) == Cross(init, seps) + row;
    if i < n - 1 {
      CrossAt(init, seps, i, j);
    } else {
      CrossLength(init, seps);
      assert i * |seps| + j == |Cross(init, seps)| + j;
    }
  }

  /** Every attempt pairs a listed encoding with a listed separator, and every such pair is tried. */
  lemma {:induction false} CrossMembers(encs: seq<string>, seps: seq<Option<char>>)
    ensures forall a :: a in Cross(encs, seps) <==> a.encoding in encs && a.sep in seps
  {
    if encs != [] {
      var init := encs[..|encs| - 1];
      CrossMembers(init, seps);
      assert encs == init + [encs[|encs| - 1]];
    }
  }

  /** With a concrete separator chosen, the primary sweep tries it and nothing else. */
  lemma ConcreteSeparatorOnly(encodingChoice: string, sep: char, sniffed: Option<char>)
    ensures var atts := Cross(PrimaryEncodings(encodingChoice), SeparatorCandidates(Some(sep), sniffed));
            |atts| == 5 && forall a :: a in atts ==> a.sep == Some(sep)
  {
    CrossLength(PrimaryEncodings(encodingChoice), [Some(sep)]);
    CrossMembers(PrimaryEncodings(encodingChoice), [Some(sep)]);
  }

  /**
   * The encoding list is not deduplicated: with "utf-8" chosen, the first and
   * the third encoding coincide and every primary attempt of the first round is
   * made again in the third.
   */
  lemma PrimaryRepeatsChosenEncoding(seps: seq<Option<char>>, j: nat)
    requires j < |seps|
    ensures var atts := Cross(PrimaryEncodings("utf-8"), seps);
            2 * |seps| + j < |atts| && atts[j] == atts[2 * |seps| + j]
  {
    CrossAt(PrimaryEncodings("utf-8"), seps, 0, j);
    CrossAt(PrimaryEncodings("utf-8"), seps, 2, j);
  }

  /** The first accepted attempt of a concatenation: the first part is searched first. */
  lemma FirstAcceptedAppend(ctx: Context, xs: seq<Attempt>, ys: seq<Attempt>)
    ensures var k := FirstAccepted(ctx, xs);
            FirstAccepted(ctx, xs + ys) == if k < |xs| then k else |xs| + FirstAccepted(ctx, ys)
  {
    var k := FirstAccepted(ctx, xs);
    var m := FirstAccepted(ctx, xs + ys);
    if k < |xs| {
      assert (xs + ys)[k] == xs[k];
    } else {
      var l := FirstAccepted(ctx, ys);
      assert l < |ys| ==> (xs + ys)[|xs| + l] == ys[l];
      forall j | 0 <= j < |xs| + l ensures !Accepts(ctx, (xs + ys)[j]) {
        if j >= |xs| {
          assert (xs + ys)[j] == ys[j - |xs|];
        }
      }
    }
  }

  /**
   * `found` and `tried` are what searching `atts` in order, stopping at the
   * first accepted attempt, yields: that attempt's table and the attempts up to
   * and including it, or nothing and every attempt.
   */
  predicate SearchResult(ctx: Context, atts: seq<Attempt>, found: Option<Table>, tried: seq<Attempt>) {
    var k := FirstAccepted(ctx, atts);
    (k < |atts| ==> found == Try(ctx, atts[k]).0 && found.Some? && tried == atts[..k + 1]) &&
    (k == |atts| ==> found.None? && tried == atts)
  }

  /** The table a search of `atts` finds: that of the first accepted attempt, which has at least one column. */
  function SearchFound(ctx: Context, atts: seq<Attempt>): (found: Option<Table>)
    ensures found.Some? <==> exists k :: 0 <= k < |atts| && Accepts(ctx, atts[k])
    ensures found.Some? ==> |found.value.columns| > 0
  {
    var k := FirstAccepted(ctx, atts);
    if k < |atts| then Try(ctx, atts[k]).0 else None
  }

  /** A search that succeeds on `xs` is also the search of `xs + ys`. */
  lemma SearchStopsInFirst(ctx: Context, xs: seq<Attempt>, ys: seq<Attempt>, found: Option<Table>, tried: seq<Attempt>)
    requires SearchResult(ctx, xs, found, tried) && found.Some?
    ensures SearchResult(ctx, xs + ys, found, tried)
  {
    FirstAcceptedAppend(ctx, xs, ys);
    var k := FirstAccepted(ctx, xs);
    assert (xs + ys)[k] == xs[k];
    assert (xs + ys)[..k + 1] == xs[..k + 1];
  }

  /** After every attempt of `xs` is rejected, searching `xs + ys` goes on with `ys`. */
  lemma SearchContinues(ctx: Context, xs: seq<Attempt>, ys: seq<Attempt>, found: Option<Table>, tried: seq<Attempt>)
    requires FirstAccepted(ctx, xs) == |xs|
    requires SearchResult(ctx, ys, found, tried)
    ensures SearchResult(ctx, xs + ys, found, xs + tried)
  {
    FirstAcceptedAppend(ctx, xs, ys);
    var l := FirstAccepted(ctx, ys);
    if l < |ys| {
      assert (xs + ys)[|xs| + l] == ys[l];
      assert (xs + ys)[..|xs| + l + 1] == xs + ys[..l + 1];
    }
  }

  // ---------------------------------------------------------------------------
  // The loader.

  /**
   * One nested sweep (streamlit/app3.py:102-106 and 109-113): encodings outer,
   * separators inner, returning at the first accepted attempt.  `tried` logs
   * the attempts made.
   */
  method Sweep(ctx: Context, encs: seq<string>, seps: seq<Option<char>>)
    returns (found: Option<Table>, ghost tried: seq<Attempt>)
    ensures found == SearchFound(ctx, Cross(encs, seps))
    ensures SearchResult(ctx, Cross(encs, seps), found, tried)
  {
    found := None;
    tried := [];
    for i := 0 to |encs|
      invariant tried == Cross(encs[..i], seps)
      invariant forall k :: 0 <= k < |tried| ==> !Accepts(ctx, tried[k])
    {
      for j := 0 to |seps|
        invariant tried == Cross(encs[..i], seps) + Pairs(encs[i], seps[..j])
        invariant forall k :: 0 <= k < |tried| ==> !Accepts(ctx, tried[k])
      {
        var a := Attempt(encs[i], seps[j]);
        var (df, err) := Try(ctx, a);
        if err.None? && df.Some? && |df.value.columns| > 0 {
          SweepPrefix(encs, seps, i, j, tried);
          AcceptedAfter(ctx, Cross(encs, seps), tried, a);
          return df, tried + [a];
        }
        PairsStep(encs[i], seps, j);
        tried := tried + [a];
      }
      CrossStep(encs, seps, i);
      assert seps[..|seps|] == seps;
    }
    assert encs[..|encs|] == encs;
    AllRejected(ctx, Cross(encs, seps));
  }

  lemma AllRejected(ctx: Context, atts: seq<Attempt>)
    requires forall k :: 0 <= k < |atts| ==> !Accepts(ctx, atts[k])
    ensures FirstAccepted(ctx, atts) == |atts|
  {
  }

  lemma PairsStep(e: string, seps: seq<Option<char>>, j: nat)
    requires j < |seps|
    ensures Pairs(e, seps[..j + 1]) == Pairs(e, seps[..j]) + [Attempt(e, seps[j])]
  {
  }

  lemma CrossStep(encs: seq<string>, seps: seq<Option<char>>, i: nat)
    requires i < |encs|
    ensures Cross(encs[..i + 1], seps) == Cross(encs[..i], seps) + Pairs(encs[i], seps)
  {
    assert encs[..i + 1][..i] == encs[..i];
  }

  /** The attempts made before `(i, j)`, followed by `(i, j)`, are the first attempts of the whole sweep. */
  lemma SweepPrefix(encs: seq<string>, seps: seq<Option<char>>, i: nat, j: nat, prev: seq<Attempt>)
    requires i < |encs| && j < |seps|
    requires prev == Cross(encs[..i], seps) + Pairs(encs[i], seps[..j])
    ensures var atts := Cross(encs, seps);
            |prev| < |atts| && atts[..|prev| + 1] == prev + [Attempt(encs[i], seps[j])]
  {
    var tried := prev + [Attempt(encs[i], seps[j])];
    PairsStep(encs[i], seps, j);
    assert tried == Cross(encs[..i], seps) + Pairs(encs[i], seps[..j + 1]);
    CrossStep(encs, seps, i);
    CrossPrefix(encs, seps, i + 1);
    var done, row := Cross(encs[..i], seps), Pairs(encs[i], seps);
    assert Pairs(encs[i], seps[..j + 1]) == row[..j + 1];
    assert tried == (done + row)[..|tried|];
    var atts := Cross(encs, seps);
    assert atts[..|tried|] == atts[..|done + row|][..|tried|];
  }

  /** An accepted attempt `a` preceded only by rejected ones ends the search. */
  lemma AcceptedAfter(ctx: Context, atts: seq<Attempt>, prev: seq<Attempt>, a: Attempt)
    requires |prev| < |atts| && atts[..|prev| + 1] == prev + [a]
    requires forall k :: 0 <= k < |prev| ==> !Accepts(ctx, prev[k])
    requires Accepts(ctx, a)
    ensures SearchResult(ctx, atts, Try(ctx, a).0, prev + [a])
  {
    assert forall k :: 0 <= k < |prev| ==> atts[k] == atts[..|prev| + 1][k] == prev[k];
    assert atts[|prev|] == atts[..|prev| + 1][|prev|] == a;
    assert FirstAccepted(ctx, atts) == |prev|;
  }

  lemma {:induction false} CrossPrefix(encs: seq<string>, seps: seq<Option<char>>, i: nat)
    requires i <= |encs|
    ensures var p := Cross(encs[..i], seps);
            |p| <= |Cross(encs, seps)| && Cross(encs, seps)[..|p|] == p
  {
    if i < |encs| {
      var init := encs[..|encs| - 1];
      CrossPrefix(init, seps, i);
      assert init[..i] == encs[..i];
    } else {
      assert encs[..i] == encs;
    }
  }

  /** The primary sweep, then, when it accepts nothing, the fallback sweep (streamlit/app3.py:99-113). */
  method SweepAll(ctx: Context, encs: seq<string>, seps: seq<Option<char>>,
                  fallbackEncs: seq<string>, fallbackSeps: seq<Option<char>>)
    returns (found: Option<Table>, ghost tried: seq<Attempt>)
    ensures found == SearchFound(ctx, Cross(encs, seps) + Cross(fallbackEncs, fallbackSeps))
    ensures SearchResult(ctx, Cross(encs, seps) + Cross(fallbackEncs, fallbackSeps), found, tried)
  {
    ghost var tried1, tried2;
    found, tried1 := Sweep(ctx, encs, seps);
    if found.Some? {
      tried := tried1;
      SearchStopsInFirst(ctx, Cross(encs, seps), Cross(fallbackEncs, fallbackSeps), found, tried);
      return;
    }
    // brute-force fallbacks
    found, tried2 := Sweep(ctx, fallbackEncs, fallbackSeps);
    tried := tried1 + tried2;
    SearchContinues(ctx, Cross(encs, seps), Cross(fallbackEncs, fallbackSeps), found, tried2);
  }

  /** Which branch of the loader a present file takes. */
  datatype Route = ZipContainer | Pdf | ExcelByName | Delimited

  function RouteOf(f: Upload): Route {
    if f.raw.Some? && HasPrefix(f.raw.value, ZipMagic) then ZipContainer
    else if f.raw.Some? && HasPrefix(f.raw.value, PdfMagic) then Pdf
    else if HasExcelExtension(f.name) then ExcelByName
    else Delimited
  }

  /** The reader CSV attempts are given: the bytes when there are any, else the upload. */
  function CsvSource(f: Upload): Source {
    if f.raw.Some? then InMemory(f.raw.value) else Handle(f)
  }

  /** `sniff_sep`: the sniffed separator, when no separator is fixed and there are bytes. */
  function SniffedSeparator(lib: Library, f: Upload, sep: Option<char>, encodingChoice: string): Option<char> {
    if f.raw.Some? && sep.None? then lib.sniff(Head(f.raw.value, 8192), encodingChoice) else None
  }

  /** Every (encoding, separator) pair the loader may try, in order: the primary sweep, then the fallback. */
  function AllAttempts(lib: Library, f: Upload, sep: Option<char>, encodingChoice: string): seq<Attempt> {
    Cross(PrimaryEncodings(encodingChoice), SeparatorCandidates(sep, SniffedSeparator(lib, f, sep, encodingChoice))) +
    Cross(FallbackEncodings, FallbackSeparators)
  }

  /** The diagnostics recorded before any reader is called. */
  function InitialDiagnostics(f: Upload): Diagnostics {
    Diagnostics(
      f.name,
      if f.raw.Some? then Some(|f.raw.value|) else None,
      if f.raw.Some? then Some(Head(f.raw.value, 2048)) else None,
      None,
      None)
  }

  /** Table and message from a spreadsheet read. */
  function ExcelResult(r: Result<Table, string>, prefix: string): (Option<Table>, Option<string>) {
    match r
    case Ok(t) => (Some(t), None)
    case Err(e) => (None, Some(prefix + e))
  }

  /**
   * The delimited-text branch (streamlit/app3.py:58-115): sniff, then the
   * primary and the fallback sweep.  The result is the table of the first
   * accepted attempt of `AllAttempts`, or the fixed "Unable to parse" message
   * once every attempt is rejected; `tried` lists the attempts made.
   */
  method ReadDelimited(lib: Library, f: Upload, nrows: Option<nat>, sep: Option<char>, hdr: Option<nat>,
                       encodingChoice: string)
    returns (table: Option<Table>, err: Option<string>, diag: Diagnostics, ghost tried: seq<Attempt>)
    ensures table.Some? <==> err.None?
    ensures SearchResult(Context(lib, CsvSource(f), nrows, hdr), AllAttempts(lib, f, sep, encodingChoice), table, tried)
    ensures table.None? ==> err == Some(UnparsableMessage)
    // the sniffer's findings are recorded only when both of its calls succeed
    ensures diag.name == f.name && diag.sizeBytes == InitialDiagnostics(f).sizeBytes &&
            diag.headBytes == InitialDiagnostics(f).headBytes
    ensures diag.sniffDelimiter.Some? <==> diag.sniffHasHeader.Some?
    ensures diag.sniffDelimiter.Some? ==>
              f.raw.Some? && sep.None? &&
              diag.sniffDelimiter == lib.sniff(Head(f.raw.value, 8192), encodingChoice) &&
              diag.sniffHasHeader == lib.hasHeader(Head(f.raw.value, 8192), encodingChoice)
    // and they are recorded whenever both calls succeed
    ensures f.raw.Some? && sep.None? &&
            lib.sniff(Head(f.raw.value, 8192), encodingChoice).Some? &&
            lib.hasHeader(Head(f.raw.value, 8192), encodingChoice).Some? ==>
              diag.sniffDelimiter == lib.sniff(Head(f.raw.value, 8192), encodingChoice) &&
              diag.sniffHasHeader == lib.hasHeader(Head(f.raw.value, 8192), encodingChoice)
  {
    diag := InitialDiagnostics(f);
    var sniffSep: Option<char> := None;
    if f.raw.Some? && sep.None? {
      var sample := Head(f.raw.value, 8192);
      sniffSep := lib.sniff(sample, encodingChoice);
      var sniffHasHeader := lib.hasHeader(sample, encodingChoice);
      if sniffSep.Some? && sniffHasHeader.Some? {
        diag := diag.(sniffDelimiter := sniffSep, sniffHasHeader := sniffHasHeader);
      }
    }

    var ctx := Context(lib, CsvSource(f), nrows, hdr);
    var found;
    found, tried := SweepAll(ctx, PrimaryEncodings(encodingChoice), SeparatorCandidates(sep, sniffSep),
                             FallbackEncodings, FallbackSeparators);
    if found.Some? {
      return found, None, diag, tried;
    }
    return None, Some(UnparsableMessage), diag, tried;
  }

  /**
   * `read_table_safely` (streamlit/app3.py:22-115).  It returns a table and no
   * message, or a message and no table, and diagnostics with every present
   * file.  A ZIP or PDF signature, or a spreadsheet extension, settles the
   * result without any CSV attempt; every other file is read as delimited text.
   */
  method ReadTableSafely(lib: Library, file: Option<Upload>, nrows: Option<nat>,
                         sepChoice: string, headerChoice: string, encodingChoice: string)
    returns (table: Option<Table>, err: Option<string>, diag: Option<Diagnostics>, ghost tried: seq<Attempt>)
    ensures table.Some? <==> err.None?
    ensures diag.Some? <==> file.Some?
    ensures file.None? ==> err == Some(NoFileMessage) && tried == []
    ensures file.Some? ==>
              var f := file.value;
              diag.value.name == f.name &&
              diag.value.sizeBytes == (if f.raw.Some? then Some(|f.raw.value|) else None) &&
              diag.value.headBytes == (if f.raw.Some? then Some(Head(f.raw.value, 2048)) else None)
    ensures file.Some? && RouteOf(file.value) == ZipContainer ==>
              tried == [] &&
              (table, err) == ExcelResult(lib.readExcel(InMemory(file.value.raw.value), nrows), ZipFailurePrefix)
    ensures file.Some? && RouteOf(file.value) == Pdf ==>
              tried == [] && table.None? && err == Some(PdfMessage)
    ensures file.Some? && RouteOf(file.value) == ExcelByName ==>
              tried == [] &&
              (table, err) == ExcelResult(lib.readExcel(Handle(file.value), nrows), ExcelFailurePrefix)
    ensures file.Some? && RouteOf(file.value) == Delimited ==>
              SearchResult(Context(lib, CsvSource(file.value), nrows, HeaderRow(headerChoice)),
                           AllAttempts(lib, file.value, SeparatorFor(sepChoice), encodingChoice), table, tried) &&
              (table.None? ==> err == Some(UnparsableMessage))
    // a delimited read never yields a table without columns; a spreadsheet read is not checked
    ensures file.Some? && RouteOf(file.value) == Delimited && table.Some? ==> |table.value.columns| > 0
    // the sniffer is consulted only for delimited text with no separator chosen, and its
    // findings are recorded only when both of its calls succeed
    ensures file.Some? && diag.value.sniffDelimiter.Some? ==>
              var f := file.value;
              RouteOf(f) == Delimited && f.raw.Some? && SeparatorFor(sepChoice).None? &&
              diag.value.sniffDelimiter == lib.sniff(Head(f.raw.value, 8192), encodingChoice) &&
              diag.value.sniffHasHeader == lib.hasHeader(Head(f.raw.value, 8192), encodingChoice)
    ensures file.Some? ==> (diag.value.sniffDelimiter.Some? <==> diag.value.sniffHasHeader.Some?)
    ensures file.Some? && RouteOf(file.value) == Delimited && file.value.raw.Some? && SeparatorFor(sepChoice).None? &&
            lib.sniff(Head(file.value.raw.value, 8192), encodingChoice).Some? &&
            lib.hasHeader(Head(file.value.raw.value, 8192), encodingChoice).Some? ==>
              diag.value.sniffDelimiter == lib.sniff(Head(file.value.raw.value, 8192), encodingChoice) &&
              diag.value.sniffHasHeader == lib.hasHeader(Head(file.value.raw.value, 8192), encodingChoice)
  {
    tried := [];
    if file.None? {
      return None, Some(NoFileMessage), None, tried;
    }
    var f := file.value;
    var d := InitialDiagnostics(f);

    // Excel/ZIP and PDF guards
    if f.raw.Some? {
      var raw := f.raw.value;
      if HasPrefix(raw, ZipMagic) {
        var r := ExcelResult(lib.readExcel(InMemory(raw), nrows), ZipFailurePrefix);
        return r.0, r.1, Some(d), tried;
      }
      if HasPrefix(raw, PdfMagic) {
        return None, Some(PdfMessage), Some(d), tried;
      }
    }

    // Excel by extension
    if HasExcelExtension(f.name) {
      var r := ExcelResult(lib.readExcel(Handle(f), nrows), ExcelFailurePrefix);
      return r.0, r.1, Some(d), tried;
    }

    assert RouteOf(f) == Delimited;
    table, err, d, tried := ReadDelimited(lib, f, nrows, SeparatorFor(sepChoice), HeaderRow(headerChoice), encodingChoice);
    return table, err, Some(d), tried;
  }
}
