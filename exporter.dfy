/**
 * The CSV layout: the fixed header and the five fields of each row, in
 * header order. Quoting and escaping are the CSV library's and are not
 * part of this model.
 */
module CsvLayout {
  import opened Wrappers
  import opened Shapes

  /** One field as the CSV writer receives it: nil, a string or an integer. */
  datatype Field = Nil | Text(text: string) | Number(number: int)

  /** The written file: its header row and its data rows. */
  datatype CsvFile = CsvFile(header: seq<string>, rows: seq<seq<Field>>) {
    /** Lines in the file: the header and one per row. */
    function LineCount(): nat { 1 + |rows| }
  }

  const Header: seq<string> := ["Title", "Year", "Directors", "Rating10", "WatchedDate"]

  function TextField(s: Option<string>): Field {
    if s.Some? then Text(s.value) else Nil
  }

  function NumberField(n: Option<int>): Field {
    if n.Some? then Number(n.value) else Nil
  }

  /** The row `write_csv` pushes for one record. */
  function Row(movie: MovieRecord): (row: seq<Field>)
    ensures |row| == |Header|
  {
    [TextField(movie.title), NumberField(movie.year), Text(movie.directors),
     NumberField(movie.rating10), TextField(movie.watchedDate)]
  }

  /** The file holding one row per record, in record order. */
  function Table(movies: seq<MovieRecord>): CsvFile {
    CsvFile(Header, seq(|movies|, i requires 0 <= i < |movies| => Row(movies[i])))
  }

  function ReadText(f: Field): Option<Option<string>> {
    match f
    case Nil => Some(None)
    case Text(s) => Some(Some(s))
    case Number(_) => None
  }

  function ReadNumber(f: Field): Option<Option<int>> {
    match f
    case Nil => Some(None)
    case Number(n) => Some(Some(n))
    case Text(_) => None
  }

  /** Reads a record back from a row laid out in header order. */
  function ReadRow(row: seq<Field>): Option<MovieRecord> {
    if |row| != |Header| || !row[2].Text? then None
    else
      var title, year, rating, date := ReadText(row[0]), ReadNumber(row[1]), ReadNumber(row[3]), ReadText(row[4]);
      if title.Some? && year.Some? && rating.Some? && date.Some? then
        Some(MovieRecord(title.value, year.value, row[2].text, rating.value, date.value))
      else None
  }

  /** Reads every row back. */
  function ReadRows(rows: seq<seq<Field>>): Option<seq<MovieRecord>> {
    if rows == [] then Some([])
    else
      var first, rest := ReadRow(rows[0]), ReadRows(rows[1..]);
      if first.Some? && rest.Some? then Some([first.value] + rest.value) else None
  }

  /** Each row carries its record's five fields in header order, and nothing is lost. */
  lemma RowRoundTrip(movie: MovieRecord)
    ensures ReadRow(Row(movie)) == Some(movie)
  {
  }

  /** The data rows read back as the records, in the same order. */
  lemma {:induction false} TableRoundTrip(movies: seq<MovieRecord>)
    ensures ReadRows(Table(movies).rows) == Some(movies)
  {
    if movies != [] {
      TableRoundTrip(movies[1..]);
      assert Table(movies).rows[1..] == Table(movies[1..]).rows;
      RowRoundTrip(movies[0]);
      assert [movies[0]] + movies[1..] == movies;
    }
  }
}

/**
 * The exporter object: `@movies` accumulates across the loop of
 * `fetch_all_movies`, `write_csv` turns it into rows and `export_to_csv`
 * skips writing when nothing was collected.
 */
module Exporter {
  import opened Wrappers
  import opened Shapes
  import opened DateFormat
  import opened Mapper
  import opened Pagination
  import opened CsvLayout

  /** What `export_to_csv` ends with. */
  datatype ExportOutcome =
    | Crashed(cause: RaiseCause)
    | NothingWritten
    | Written(filename: string, file: CsvFile)

  /** `export_to_csv` on an exporter whose `@movies` holds `movies` beforehand. */
  function Export(movies: seq<MovieRecord>, filename: string, server: Server, parse: TimeParser, username: string): ExportOutcome {
    var run := FetchAll(server, parse, username);
    var collected := movies + run.records;
    if run.stop.Raised? then Crashed(run.stop.cause)
    else if collected == [] then NothingWritten
    else Written(filename, Table(collected))
  }

  class SensCritiqueExporter {
    const username: string
    var movies: seq<MovieRecord>

    constructor (username: string)
      ensures this.username == username && movies == []
    {
      this.username := username;
      movies := [];
    }

    /**
     * `fetch_all_movies`: requests pages until a check stops the loop or the
     * total is reached, appending each page's records to `movies`.
     */
    method FetchAllMovies(server: Server, parse: TimeParser) returns (stop: StopReason, requests: seq<Request>)
      modifies this`movies
      ensures var run := FetchAll(server, parse, username);
        movies == old(movies) + run.records && stop == run.stop && requests == run.requests
    {
      ghost var whole := FetchAll(server, parse, username);
      ghost var gathered: seq<MovieRecord> := [];
      var offset: nat := 0;
      var total: Option<int> := None;
      requests := [];
      while true
        invariant movies == old(movies) + gathered
        invariant whole == After(gathered, requests, Fetch(server, parse, username, offset, total))
        decreases if total.None? then 1 else 0, Remaining(offset, total)
      {
        ghost var current := Fetch(server, parse, username, offset, total);
        ghost var gathered0, requests0 := gathered, requests;
        requests := requests + [RequestAt(username, offset)];
        var done, next, known;
        ghost var page;
        done, stop, next, known, page := Iterate(server, parse, offset, total);
        gathered := gathered + page;
        ConcatAssoc(old(movies), gathered0, page);
        if done {
          assert whole.records == gathered0 + current.records == gathered;
          break;
        }
        AfterAfter(gathered0, requests0, page, [RequestAt(username, offset)], Fetch(server, parse, username, next, known));
        offset, total := next, known;
      }
    }

    /**
     * One pass through the body of the loop, issuing the request at `offset`:
     * it appends `page` to `movies` and either breaks with `stop` or goes on
     * at `next` with the total it now knows.
     */
    method Iterate(server: Server, parse: TimeParser, offset: nat, total: Option<int>)
      returns (done: bool, stop: StopReason, next: nat, known: Option<int>, ghost page: seq<MovieRecord>)
      modifies this`movies
      ensures movies == old(movies) + page
      ensures var run := Fetch(server, parse, username, offset, total);
        done ==> run == Run(page, [RequestAt(username, offset)], stop, run.total)
      ensures !done ==> known.Some? && next == offset + Limit && next < known.value
      ensures !done && total.Some? ==> known == total
      ensures var run := Fetch(server, parse, username, offset, total);
        !done ==> run == After(page, [RequestAt(username, offset)], Fetch(server, parse, username, next, known))
    {
      var request := RequestAt(username, offset);
      var response := server(request);
      var step := CheckResponse(response, total);
      next, known := offset, total;
      if step.Halt? {
        return true, step.stop, next, known, [];
      }
      known := step.known;
      PageAppended(server, parse, username, offset, total);
      AppendPage(parse, step.products);
      page := ParsePage(parse, step.products);
      next := offset + Limit;
      if known.None? {
        return true, Raised(NilTotal), next, known, page;
      }
      if next >= known.value {
        return true, ReachedTotal, next, known, page;
      }
      // the loop goes on: `stop` is unused when `done` is false
      done, stop := false, ReachedTotal;
      assert [] + page == page;
    }

    /**
     * The checks of one iteration of `fetch_all_movies`, in order, with
     * `total ||= collection['total']` on the way: the step the loop takes.
     */
    method CheckResponse(response: Response, total: Option<int>) returns (step: Step)
      ensures step == Inspect(response, total)
    {
      if response.Failed? {
        return Halt(TransportFailed, total);
      }
      if response.body.errors.Some? {
        return Halt(GraphQLErrors(response.body.errors.value), total);
      }
      var user := response.body.user;
      if user.None? {
        return Halt(UserMissing, total);
      }
      var collection := user.value.collection;
      var known := total;
      if known.None? {
        if collection.None? {
          return Halt(Raised(NilCollection), total);
        }
        known := collection.value.total;
      }
      var products := if collection.Some? then collection.value.products.GetOr([]) else [];
      if products == [] {
        return Halt(NoProducts, known);
      }
      step := Append(products, known);
    }

    /** `products.each { |product| @movies << parse_movie(product) }`. */
    method AppendPage(parse: TimeParser, products: seq<RawProduct>)
      modifies this`movies
      ensures movies == old(movies) + ParsePage(parse, products)
    {
      var i := 0;
      while i < |products|
        invariant 0 <= i <= |products|
        invariant movies == old(movies) + ParsePage(parse, products[..i])
      {
        movies := movies + [ParseMovie(parse, products[i])];
        i := i + 1;
        assert ParsePage(parse, products[..i]) == ParsePage(parse, products[..i - 1]) + [ParseMovie(parse, products[i - 1])];
      }
      assert products[..i] == products;
    }

    /** `write_csv`: the header, then one row per record of `movies`, in order. */
    method WriteCsv() returns (file: CsvFile)
      ensures file.header == Header
      ensures |file.rows| == |movies|
      ensures forall i :: 0 <= i < |movies| ==> file.rows[i] == Row(movies[i])
    {
      var rows: seq<seq<Field>> := [];
      for i := 0 to |movies|
        invariant |rows| == i
        invariant forall k :: 0 <= k < i ==> rows[k] == Row(movies[k])
      {
        var movie := movies[i];
        rows := rows + [[TextField(movie.title), NumberField(movie.year), Text(movie.directors),
                         NumberField(movie.rating10), TextField(movie.watchedDate)]];
      }
      file := CsvFile(Header, rows);
    }

    /**
     * `export_to_csv`: fetches, then writes the file only when `movies` is
     * not empty; an exception raised by the loop ends the run unwritten.
     */
    method ExportToCsv(filename: string, server: Server, parse: TimeParser) returns (outcome: ExportOutcome)
      modifies this`movies
      ensures movies == old(movies) + FetchAll(server, parse, username).records
      ensures outcome == Export(old(movies), filename, server, parse, username)
    {
      var stop, _ := FetchAllMovies(server, parse);
      if stop.Raised? {
        outcome := Crashed(stop.cause);
        return;
      }
      if movies == [] {
        outcome := NothingWritten;
        return;
      }
      var file := WriteCsv();
      assert file == Table(movies);
      outcome := Written(filename, file);
    }
  }

  /** A failed first request leaves a fresh exporter with nothing to write. */
  lemma FirstRequestFails(filename: string, server: Server, parse: TimeParser, username: string)
    requires server(RequestAt(username, 0)).Failed?
    ensures Export([], filename, server, parse, username) == NothingWritten
  {
  }

  /** Whatever happens, a file is written only with at least one row. */
  lemma WrittenFileNotEmpty(movies: seq<MovieRecord>, filename: string, server: Server, parse: TimeParser, username: string)
    ensures var outcome := Export(movies, filename, server, parse, username);
      outcome.Written? ==> |outcome.file.rows| >= 1 && outcome.file.header == Header
    ensures var run := FetchAll(server, parse, username);
      !run.stop.Raised? && movies + run.records != [] ==> Export(movies, filename, server, parse, username).Written?
  {
  }

  /** A page of `count` copies of one product under a declared total. */
  function PageOf(total: int, product: RawProduct, count: nat): Response {
    Ok(Body(None, Some(User(Some(Collection(Some(total), Some(seq(count, _ => product))))))))
  }

  /** Pages of 50 and 13 under a declared total of 63. */
  function TwoPageServer(product: RawProduct): Server {
    (request: Request) =>
      if request.offset == 0 then PageOf(63, product, 50)
      else if request.offset == 50 then PageOf(63, product, 13)
      else Failed
  }

  /** Pages of 50 and 13 with a total of 63 give 63 records and a file of 64 lines. */
  lemma TwoPageExport(filename: string, product: RawProduct, parse: TimeParser, username: string)
    ensures var outcome := Export([], filename, TwoPageServer(product), parse, username);
      outcome.Written? && |outcome.file.rows| == 63 && outcome.file.LineCount() == 64
  {
    var server := TwoPageServer(product);
    var second := Fetch(server, parse, username, 50, Some(63));
    assert |PageProducts(server(RequestAt(username, 50)))| == 13;
    assert second.stop == ReachedTotal && |second.records| == 13;
    assert |PageProducts(server(RequestAt(username, 0)))| == 50;
    var run := FetchAll(server, parse, username);
    assert |run.records| == 63;
  }
}
