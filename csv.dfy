/**
 * Appending the results of one query to google_search.csv (save_to_csv in
 * google_scrapping.py). The file is its existence flag and its rows; the clock is
 * passed in as the already formatted date and time.
 */
module Csv {
  import opened Results

  type Row = seq<string>

  const Header: Row := ["Date", "Time", "Query", "Title", "URL"]

  /** Python's zip(titles, urls): pairs up to the shorter list. */
  function Zip(titles: seq<string>, urls: seq<string>): seq<(string, string)>
  {
    if titles == [] || urls == [] then []
    else [(titles[0], urls[0])] + Zip(titles[1..], urls[1..])
  }

  /** Zipping the titles and URLs of a list of pairs gives the pairs back. */
  lemma {:induction false} ZipUnzip(hits: seq<Hit>)
    ensures Zip(Titles(hits), Urls(hits)) == hits
  {
    if hits != [] {
      ZipUnzip(hits[1..]);
      assert Titles(hits)[1..] == Titles(hits[1..]);
      assert Urls(hits)[1..] == Urls(hits[1..]);
    }
  }

  /** The data rows for the pairs, one per pair, in order. */
  function DataRows(date: string, time: string, query: string, pairs: seq<(string, string)>): seq<Row>
  {
    if pairs == [] then []
    else
      var p := pairs[|pairs| - 1];
      DataRows(date, time, query, pairs[..|pairs| - 1]) + [[date, time, query, p.0, p.1]]
  }

  /** What save_to_csv appends: the header when the file is new, then the data rows. */
  function SavedRows(existed: bool, date: string, time: string, query: string, titles: seq<string>, urls: seq<string>): seq<Row>
  {
    (if existed then [] else [Header]) + DataRows(date, time, query, Zip(titles, urls))
  }

  /** zip stops at the shorter list and pairs equal positions. */
  lemma {:induction false} ZipShape(titles: seq<string>, urls: seq<string>)
    ensures |Zip(titles, urls)| == if |titles| < |urls| then |titles| else |urls|
    ensures forall k :: 0 <= k < |Zip(titles, urls)| ==> Zip(titles, urls)[k] == (titles[k], urls[k])
  {
    if titles != [] && urls != [] {
      ZipShape(titles[1..], urls[1..]);
    }
  }

  lemma {:induction false} DataRowsShape(date: string, time: string, query: string, pairs: seq<(string, string)>)
    ensures |DataRows(date, time, query, pairs)| == |pairs|
    ensures forall k :: 0 <= k < |pairs| ==>
      DataRows(date, time, query, pairs)[k] == [date, time, query, pairs[k].0, pairs[k].1]
  {
    if pairs != [] {
      DataRowsShape(date, time, query, pairs[..|pairs| - 1]);
    }
  }

  /**
   * The header is written if and only if the file did not exist; then come exactly
   * min(|titles|, |urls|) rows [date, time, query, title, url], the query in the
   * third column.
   */
  lemma SavedRowsShape(existed: bool, date: string, time: string, query: string, titles: seq<string>, urls: seq<string>)
    ensures var rows := SavedRows(existed, date, time, query, titles, urls);
      var h := if existed then 0 else 1;
      var n := if |titles| < |urls| then |titles| else |urls|;
      |rows| == h + n &&
      (!existed ==> rows[0] == Header) &&
      forall k :: 0 <= k < n ==> rows[h + k] == [date, time, query, titles[k], urls[k]] && rows[h + k][2] == query
  {
    ZipShape(titles, urls);
    DataRowsShape(date, time, query, Zip(titles, urls));
  }

  /** The output file: whether it exists and the rows it holds. */
  class CsvFile {
    var present: bool
    var rows: seq<Row>

    /** A file that does not exist holds no rows. */
    ghost predicate Valid()
      reads this
    {
      !present ==> rows == []
    }

    constructor (present: bool, rows: seq<Row>)
      requires !present ==> rows == []
      ensures Valid() && this.present == present && this.rows == rows
    {
      this.present := present;
      this.rows := rows;
    }

    /** open(file_path, "a"): the file exists from now on. */
    method OpenForAppend()
      requires Valid()
      modifies this
      ensures Valid() && present && rows == old(rows)
    {
      present := true;
    }

    /** writer.writerow(row) */
    method WriteRow(row: Row)
      requires Valid() && present
      modifies this
      ensures Valid() && present && rows == old(rows) + [row]
    {
      rows := rows + [row];
    }
  }

  /**
   * save_to_csv: the file present afterwards and has gained the header, if it was new,
   * and one row per zipped pair.
   */
  method SaveToCsv(file: CsvFile, query: string, titles: seq<string>, urls: seq<string>, date: string, time: string)
    requires file.Valid()
    modifies file
    ensures file.Valid() && file.present
    ensures file.rows == old(file.rows) + SavedRows(old(file.present), date, time, query, titles, urls)
  {
    var writeHeader := !file.present;
    file.OpenForAppend();
    if writeHeader {
      file.WriteRow(Header);
    }
    ghost var base := file.rows;
    var pairs := Zip(titles, urls);
    for i := 0 to |pairs|
      invariant file.Valid() && file.present
      invariant file.rows == base + DataRows(date, time, query, pairs[..i])
    {
      var (title, url) := pairs[i];
      file.WriteRow([date, time, query, title, url]);
      assert pairs[..i + 1][..i] == pairs[..i];
    }
    assert pairs[..|pairs|] == pairs;
  }
}
