/** The report renderer of src/utils/html_generator.py
    (`HTMLGenerator.generate_forex_report`).

    The renderer is split the way its proof is: `Layout` says WHAT the report
    shows (metadata with defaults, and per section either a placeholder or
    one row per entry in ascending key order), `Text` says HOW a report is
    spelled as HTML, and the method `GenerateForexReport` builds the string
    step by step as the source does and is proved equal to
    `Text(Layout(...))`.

    The wall clock, `:.6f` and `strftime` are parameters: `generatedAt` is the
    formatted current time, `fixed6` formats a rate with six decimals and
    `dateTime` formats an epoch timestamp. */
module HtmlGenerator {
  import opened Wrappers
  import opened LexOrder
  import ForexClient

  /** The result dictionary as the renderer reads it: any key may be absent. */
  datatype ReportInput = ReportInput(
    success: Option<bool>,
    terms: Option<string>,
    privacy: Option<string>,
    timestamp: Option<int>,
    source: Option<string>,
    rates: Option<map<string, ForexClient.RateEntry>>,
    allQuotes: Option<map<string, real>>)

  /** The dictionary `get_rates` returns, seen by the renderer: every key present. */
  function InputOf(result: ForexClient.FetchResult): ReportInput
  {
    ReportInput(Some(result.success), Some(result.terms), Some(result.privacy),
                Some(result.timestamp), Some(result.source), Some(result.rates),
                Some(result.allQuotes))
  }

  /** The metadata lines, already converted to text. */
  datatype Metadata = Metadata(
    generated: string,
    success: string,
    terms: string,
    privacy: string,
    source: string,
    timestamp: string)

  datatype Row = Row(pair: string, rate: string)

  /** A report section: the placeholder paragraph or a table of rows. */
  datatype Section = Placeholder(message: string) | Table(rows: seq<Row>)

  datatype Report = Report(meta: Metadata, filtered: Section, quotes: Section)

  const NoRatesMessage: string := "No filtered rates available."
  const NoQuotesMessage: string := "No quotes available."

  /** Python's `str` of the success flag, "N/A" when absent. */
  function ShowSuccess(success: Option<bool>): (shown: string)
    ensures shown == "True" <==> success == Some(true)
    ensures shown == "False" <==> success == Some(false)
    ensures shown == "N/A" <==> success.None?
  {
    match success
    case None => "N/A"
    case Some(b) => if b then "True" else "False"
  }

  /** The numeric value of each rate entry, keyed by pair. */
  function RateValues(rates: map<string, ForexClient.RateEntry>): (values: map<string, real>)
    ensures values.Keys == rates.Keys && |values| == |rates|
    ensures forall p :: p in values ==> values[p] == rates[p].rate
  {
    map p | p in rates :: rates[p].rate
  }

  /** The table rows for a dictionary: one per entry, in ascending key order,
      each showing the entry's value with six decimals. */
  ghost function TableRows(m: map<string, real>, fixed6: real -> string): (rows: seq<Row>)
    ensures |rows| == |m|
    ensures forall i :: 0 <= i < |rows| ==> rows[i].pair in m && rows[i].rate == fixed6(m[rows[i].pair])
    ensures forall i, j :: 0 <= i < j < |rows| ==> Less(rows[i].pair, rows[j].pair)
  {
    var keys := SortedKeys(m.Keys);
    seq(|keys|, i requires 0 <= i < |keys| => Row(keys[i], fixed6(m[keys[i]])))
  }

  /** Every entry of the dictionary has its row. */
  lemma TableRowsCoverEntries(m: map<string, real>, fixed6: real -> string, p: string)
    requires p in m
    ensures exists i :: 0 <= i < |TableRows(m, fixed6)| && TableRows(m, fixed6)[i].pair == p
  {
    var keys := SortedKeys(m.Keys);
    var i :| 0 <= i < |keys| && keys[i] == p;
    assert TableRows(m, fixed6)[i].pair == p;
  }

  /** The row at position `i` is the entry with the `i`-th smallest key. */
  lemma TableRowAt(m: map<string, real>, fixed6: real -> string, i: nat)
    requires i < |m|
    ensures |SortedKeys(m.Keys)| == |m|
    ensures TableRows(m, fixed6)[i] == Row(SortedKeys(m.Keys)[i], fixed6(m[SortedKeys(m.Keys)[i]]))
  {
  }

  /** `if d:` — the placeholder for an empty dictionary, a table otherwise. */
  ghost function SectionOf(m: map<string, real>, fixed6: real -> string, placeholder: string): Section
  {
    if |m| == 0 then Placeholder(placeholder) else Table(TableRows(m, fixed6))
  }

  /** What the report shows for a result dictionary. */
  ghost function Layout(input: ReportInput, generatedAt: string, fixed6: real -> string,
                        dateTime: int -> string): Report
  {
    var meta := Metadata(
      generatedAt,
      ShowSuccess(input.success),
      input.terms.GetOr("N/A"),
      input.privacy.GetOr("N/A"),
      input.source.GetOr("USD"),
      if input.timestamp.Some? then dateTime(input.timestamp.value) else "N/A");
    Report(meta,
           SectionOf(RateValues(input.rates.GetOr(map[])), fixed6, NoRatesMessage),
           SectionOf(input.allQuotes.GetOr(map[]), fixed6, NoQuotesMessage))
  }

  // ---------------------------------------------------------------------
  // The HTML text

  const Doctype: string := "<!DOCTYPE html>"
  const ClosingTag: string := "</html>"
  const FilteredHeading: string := "<h2>Filtered Rates</h2>"
  const QuotesHeading: string := "<h2>All Quotes</h2>"

  /** The body of the `<style>` element. */
  const StyleSheet: string :=
    "        body {\n"
    + "            font-family: Arial, sans-serif;\n"
    + "            margin: 20px;\n"
    + "            background-color: #f5f5f5;\n"
    + "        }\n"
    + "        .container {\n"
    + "            max-width: 900px;\n"
    + "            margin: auto;\n"
    + "            background: white;\n"
    + "            padding: 20px;\n"
    + "            border-radius: 5px;\n"
    + "            box-shadow: 0px 0px 10px rgba(0, 0, 0, 0.1);\n"
    + "        }\n"
    + "        table {\n"
    + "            width: 100%;\n"
    + "            border-collapse: collapse;\n"
    + "            margin-top: 20px;\n"
    + "        }\n"
    + "        th, td {\n"
    + "            padding: 10px;\n"
    + "            border: 1px solid #ddd;\n"
    + "            text-align: left;\n"
    + "        }\n"
    + "        th {\n"
    + "            background-color: #f4f4f4;\n"
    + "        }\n"
    + "        h1, h2 {\n"
    + "            margin-bottom: 10px;\n"
    + "        }\n"
    + "        p {\n"
    + "            margin: 5px 0;\n"
    + "        }\n"
    + "        .json-data {\n"
    + "            white-space: pre-wrap;\n"
    + "            background-color: #f8f8f8;\n"
    + "            border: 1px solid #ddd;\n"
    + "            padding: 10px;\n"
    + "            border-radius: 5px;\n"
    + "        }\n"

  const Preamble: string :=
    "\n<html>\n<head>\n    <title>Forex API Detailed Report</title>\n    <style>\n"
    + StyleSheet
    + "    </style>\n</head>\n<body>\n    <div class=\"container\">\n        <h1>Forex API Report</h1>\n"

  /** A link opening in a new tab; the address is inserted as it is. */
  function Link(url: string, caption: string): string
  {
    "<a href=\"" + url + "\" target=\"_blank\">" + caption + "</a>"
  }

  /** A labelled metadata paragraph; the value is inserted as it is. */
  function Field(name: string, value: string): string
  {
    "<p><strong>" + name + ":</strong> " + value + "</p>"
  }

  /** One indented line of the container. */
  function Line(content: string): string
  {
    "        " + content + "\n"
  }

  /** The metadata paragraphs, one line each, in the order they are shown. */
  function MetadataLines(meta: Metadata): (lines: seq<string>)
    ensures |lines| == 6
  {
    [Line(Field("Generated", meta.generated)),
     Line(Field("Success", meta.success)),
     Line(Field("Terms", Link(meta.terms, "Terms of Service"))),
     Line(Field("Privacy", Link(meta.privacy, "Privacy Policy"))),
     Line(Field("Source Currency", meta.source)),
     Line(Field("Timestamp", meta.timestamp))]
  }

  /** The concatenation of a sequence of strings. */
  function Join(parts: seq<string>): string
  {
    if parts == [] then "" else Join(parts[..|parts| - 1]) + parts[|parts| - 1]
  }

  const Gap: string := "        \n        "

  /** Everything before the filtered-rates heading: the document head and
      the metadata paragraphs. */
  function MetadataText(meta: Metadata): string
  {
    Doctype + Preamble + Join(MetadataLines(meta)) + Gap
  }

  const TableOpen: string :=
    "\n            <table>\n                <tr>\n                    <th>Currency Pair</th>\n"
    + "                    <th>Exchange Rate</th>\n                </tr>"

  const TableClose: string := "\n            </table>"

  function RowText(row: Row): string
  {
    "\n                <tr>\n                    <td>" + row.pair + "</td>\n                    <td>"
    + row.rate + "</td>\n                </tr>"
  }

  function RowsText(rows: seq<Row>): string
  {
    if rows == [] then "" else RowsText(rows[..|rows| - 1]) + RowText(rows[|rows| - 1])
  }

  lemma RowsTextSnoc(rows: seq<Row>, i: nat)
    requires i < |rows|
    ensures RowsText(rows[..i + 1]) == RowsText(rows[..i]) + RowText(rows[i])
  {
    assert rows[..i + 1][..i] == rows[..i];
  }

  /** Re-bracket a concatenation without unfolding its literal parts. */
  lemma Regroup(a: string, b: string, c: string, d: string)
    ensures a + b + c + d == a + (b + c + d)
  {
  }

  lemma Regroup3(a: string, b: string, c: string)
    ensures a + b + c == a + (b + c)
  {
  }

  function SectionText(section: Section): string
  {
    match section
    case Placeholder(message) => "<p>" + message + "</p>"
    case Table(rows) => TableOpen + RowsText(rows) + TableClose
  }

  const Closing: string := "\n    </div>\n</body>\n" + ClosingTag

  function Text(report: Report): string
  {
    MetadataText(report.meta)
    + FilteredHeading + SectionText(report.filtered)
    + "\n        " + QuotesHeading + SectionText(report.quotes)
    + Closing
  }

  // ---------------------------------------------------------------------
  // The renderer

  /** The table branch of a section (`if d:`): the header row, then one row
      per entry of `sorted(d.items())`, then the closing tag. */
  method AppendTable(prefix: string, m: map<string, real>, fixed6: real -> string)
    returns (html: string)
    ensures html == prefix + SectionText(Table(TableRows(m, fixed6)))
  {
    html := prefix + TableOpen;
    ghost var rows := TableRows(m, fixed6);
    var pairs := Sorted(m.Keys);
    for i := 0 to |pairs|
      invariant html == prefix + TableOpen + RowsText(rows[..i])
    {
      var pair := pairs[i];
      TableRowAt(m, fixed6, i);
      RowsTextSnoc(rows, i);
      Regroup3(prefix + TableOpen, RowsText(rows[..i]), RowText(rows[i]));
      html := html + RowText(Row(pair, fixed6(m[pair])));
    }
    assert rows[..|pairs|] == rows;
    Regroup(prefix, TableOpen, RowsText(rows), TableClose);
    html := html + TableClose;
  }

  /** One section (`if d:` ... `else:` ...): the table of `d`, or the
      placeholder paragraph when `d` is empty. */
  method AppendSection(prefix: string, m: map<string, real>, fixed6: real -> string, message: string)
    returns (html: string)
    ensures html == prefix + SectionText(SectionOf(m, fixed6, message))
  {
    if |m| > 0 {
      html := AppendTable(prefix, m, fixed6);
    } else {
      Regroup(prefix, "<p>", message, "</p>");
      html := prefix + "<p>" + message + "</p>";
    }
  }

  /** `generate_forex_report`: the HTML string, accumulated piece by piece. */
  method GenerateForexReport(input: ReportInput, generatedAt: string,
                             fixed6: real -> string, dateTime: int -> string)
    returns (html: string)
    ensures html == Text(Layout(input, generatedAt, fixed6, dateTime))
  {
    var rates := RateValues(input.rates.GetOr(map[]));
    var allQuotes := input.allQuotes.GetOr(map[]);
    var formattedTimestamp := if input.timestamp.Some? then dateTime(input.timestamp.value) else "N/A";
    var meta := Metadata(generatedAt, ShowSuccess(input.success), input.terms.GetOr("N/A"),
                         input.privacy.GetOr("N/A"), input.source.GetOr("USD"), formattedTimestamp);

    html := MetadataText(meta) + FilteredHeading;
    html := AppendSection(html, rates, fixed6, NoRatesMessage);
    html := html + "\n        " + QuotesHeading;
    html := AppendSection(html, allQuotes, fixed6, NoQuotesMessage);
    html := html + Closing;
  }
}
