/**
 * The record mapper: `parse_movie` turns one product of the response into a
 * flat record, and `format_date` normalises the watch date.
 */
module Mapper {
  import opened Wrappers
  import opened Shapes
  import opened DateFormat

  /** The separator `parse_movie` puts between director names. */
  const DirectorSeparator: string := ", "

  /** `Array#join`: the parts with `sep` between consecutive ones. */
  function Join(parts: seq<string>, sep: string): (r: string)
    ensures parts == [] ==> r == ""
    ensures |parts| == 1 ==> r == parts[0]
  {
    if parts == [] then ""
    else if |parts| == 1 then parts[0]
    else parts[0] + sep + Join(parts[1..], sep)
  }

  /** The names of the directors; `join` writes a null name as the empty string. */
  function DirectorNames(directors: seq<Director>): seq<string> {
    seq(|directors|, i requires 0 <= i < |directors| => directors[i].name.GetOr(""))
  }

  /**
   * `format_date`: nil for a nil or empty string, the day `Time.parse` reads
   * written as `%Y-%m-%d`, or the string unchanged where `Time.parse` raises.
   */
  function FormatDate(parse: TimeParser, dateStr: Option<string>): (r: Option<string>)
    ensures r.None? <==> dateStr.None? || dateStr.value == ""
    ensures r.Some? && parse(dateStr.value).None? ==> r == dateStr
  {
    if dateStr.None? || dateStr.value == "" then None
    else
      match parse(dateStr.value)
      case Some(day) => Some(Strftime(day))
      case None => dateStr
  }

  /** `parse_movie`: a missing `otherUserInfos` or `directors` counts as empty. */
  function ParseMovie(parse: TimeParser, product: RawProduct): (r: MovieRecord)
    ensures r.title == product.title && r.year == product.yearOfProduction
    ensures product.directors.None? ==> r.directors == ""
    ensures product.otherUserInfos.None? ==> r.rating10.None? && r.watchedDate.None?
  {
    var infos := product.otherUserInfos.GetOr(UserInfos(None, None));
    var directors := product.directors.GetOr([]);
    MovieRecord(
      product.title,
      product.yearOfProduction,
      Join(DirectorNames(directors), DirectorSeparator),
      infos.rating,
      FormatDate(parse, infos.dateDone))
  }

  /** One page of products mapped one by one, in order. */
  function ParsePage(parse: TimeParser, products: seq<RawProduct>): (page: seq<MovieRecord>)
    ensures |page| == |products|
  {
    seq(|products|, i requires 0 <= i < |products| => ParseMovie(parse, products[i]))
  }

  /** Splits a string at every `", "`: the reader of what `Join` writes with that separator. */
  function SplitNames(s: string): (r: seq<string>)
    ensures |r| >= 1
  {
    if |s| < 2 then [s]
    else if s[0] == ',' && s[1] == ' ' then [""] + SplitNames(s[2..])
    else
      var rest := SplitNames(s[1..]);
      [[s[0]] + rest[0]] + rest[1..]
  }

  lemma {:induction false} SplitNoComma(s: string)
    requires ',' !in s
    ensures SplitNames(s) == [s]
  {
    if |s| >= 2 {
      SplitNoComma(s[1..]);
      assert [s[0]] + s[1..] == s;
    }
  }

  lemma {:induction false} SplitAfterName(a: string, b: string)
    requires ',' !in a
    ensures SplitNames(a + DirectorSeparator + b) == [a] + SplitNames(b)
  {
    var s := a + DirectorSeparator + b;
    if a == [] {
      assert s[2..] == b;
    } else {
      assert s[1..] == a[1..] + DirectorSeparator + b;
      SplitAfterName(a[1..], b);
      assert [a[0]] + a[1..] == a;
    }
  }

  /** The Directors column splits back into the names, provided no name holds a comma. */
  lemma {:induction false} SplitJoinedNames(names: seq<string>)
    requires |names| >= 1
    requires forall i :: 0 <= i < |names| ==> ',' !in names[i]
    ensures SplitNames(Join(names, DirectorSeparator)) == names
  {
    if |names| == 1 {
      SplitNoComma(names[0]);
    } else {
      SplitJoinedNames(names[1..]);
      SplitAfterName(names[0], Join(names[1..], DirectorSeparator));
      assert [names[0]] + names[1..] == names;
    }
  }

  /** Joining adds exactly one separator between consecutive parts. */
  lemma {:induction false} JoinLength(parts: seq<string>, sep: string)
    requires |parts| >= 1
    ensures |Join(parts, sep)| == TotalLength(parts) + |sep| * (|parts| - 1)
  {
    if |parts| > 1 {
      JoinLength(parts[1..], sep);
    }
  }

  function TotalLength(parts: seq<string>): nat {
    if parts == [] then 0 else |parts[0]| + TotalLength(parts[1..])
  }

  /**
   * The Directors field of a record lists every director of the product, in
   * order, as far as names free of commas let it be read back; a product
   * without directors gets the empty string, never nil.
   */
  lemma DirectorsField(parse: TimeParser, product: RawProduct)
    requires product.directors.Some? && |product.directors.value| >= 1
    requires forall i :: 0 <= i < |product.directors.value| ==> ',' !in product.directors.value[i].name.GetOr("")
    ensures SplitNames(ParseMovie(parse, product).directors) == DirectorNames(product.directors.value)
  {
    SplitJoinedNames(DirectorNames(product.directors.value));
  }

  /** With `otherUserInfos` present, the rating is copied and the date normalised. */
  lemma UserInfosFields(parse: TimeParser, product: RawProduct)
    requires product.otherUserInfos.Some?
    ensures ParseMovie(parse, product).rating10 == product.otherUserInfos.value.rating
    ensures ParseMovie(parse, product).watchedDate == FormatDate(parse, product.otherUserInfos.value.dateDone)
  {
  }

  /**
   * A date that `Time.parse` reads comes out as `YYYY-MM-DD` and reads back
   * as the same day; one it cannot read passes through unchanged.
   */
  lemma FormatDateNormalises(parse: TimeParser, dateStr: string)
    requires dateStr != ""
    ensures parse(dateStr).Some? ==>
      FormatDate(parse, Some(dateStr)).Some? && ParseYmd(FormatDate(parse, Some(dateStr)).value) == parse(dateStr)
    ensures parse(dateStr).Some? && 0 <= parse(dateStr).value.year <= 9999 ==>
      |FormatDate(parse, Some(dateStr)).value| == 10
    ensures parse(dateStr).None? ==> FormatDate(parse, Some(dateStr)) == Some(dateStr)
  {
    if parse(dateStr).Some? {
      StrftimeRoundTrip(parse(dateStr).value);
      if 0 <= parse(dateStr).value.year <= 9999 {
        StrftimeShape(parse(dateStr).value);
      }
    }
  }
}
