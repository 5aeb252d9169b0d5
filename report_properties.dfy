/** What the rendered report promises, stated over `Layout` and `Text`
    (and so, through `GenerateForexReport`'s postcondition, over the HTML
    string the renderer returns). */
module ReportProperties {
  import opened Wrappers
  import opened LexOrder
  import opened HtmlGenerator
  import ForexClient

  /** `x` occurs in `s` starting at position `k`. */
  predicate OccursAt(s: string, x: string, k: int)
  {
    0 <= k && k + |x| <= |s| && s[k..k + |x|] == x
  }

  /** `x` occurs somewhere in `s`. */
  predicate Contains(s: string, x: string)
  {
    exists k :: 0 <= k <= |s| && OccursAt(s, x, k)
  }

  predicate StartsWith(s: string, p: string)
  {
    OccursAt(s, p, 0)
  }

  predicate EndsWith(s: string, p: string)
  {
    |p| <= |s| && OccursAt(s, p, |s| - |p|)
  }

  // ---------------------------------------------------------------------
  // Occurrences under concatenation

  lemma OccursSelf(x: string)
    ensures OccursAt(x, x, 0)
  {
  }

  lemma OccursLeft(s: string, t: string, x: string, k: int)
    requires OccursAt(s, x, k)
    ensures OccursAt(s + t, x, k)
  {
    assert (s + t)[k..k + |x|] == s[k..k + |x|];
  }

  lemma OccursRight(s: string, t: string, x: string, k: int)
    requires OccursAt(t, x, k)
    ensures OccursAt(s + t, x, |s| + k)
  {
    assert (s + t)[|s| + k..|s| + k + |x|] == t[k..k + |x|];
  }

  /** An occurrence inside an occurrence. */
  lemma OccursWithin(s: string, y: string, x: string, i: int, j: int)
    requires OccursAt(s, y, i) && OccursAt(y, x, j)
    ensures OccursAt(s, x, i + j)
  {
    forall n | 0 <= n < |x|
      ensures s[i + j..i + j + |x|][n] == x[n]
    {
      assert y[j..j + |x|][n] == x[n];
      assert s[i..i + |y|][j + n] == y[j + n];
    }
  }

  /** An occurrence in `s` survives embedding `s` between a prefix and
      seven more parts. */
  lemma OccursEmbedded(p: string, s: string, a: string, b: string, c: string, d: string,
                       e: string, f: string, g: string, x: string, k: int)
    requires OccursAt(s, x, k)
    ensures OccursAt(p + s + a + b + c + d + e + f + g, x, |p| + k)
  {
    OccursRight(p, s, x, k);
    OccursLeft(p + s, a + b + c + d + e + f + g, x, |p| + k);
    assert p + s + a + b + c + d + e + f + g == (p + s) + (a + b + c + d + e + f + g);
  }

  /** Every part of a joined sequence occurs in it, after the parts before it. */
  lemma {:induction false} JoinOccurs(parts: seq<string>, i: nat)
    requires i < |parts|
    ensures OccursAt(Join(parts), parts[i], |Join(parts[..i])|)
  {
    var init := parts[..|parts| - 1];
    if i == |parts| - 1 {
      assert init == parts[..i];
      OccursSelf(parts[i]);
      OccursRight(Join(init), parts[i], parts[i], 0);
    } else {
      JoinOccurs(init, i);
      assert init[i] == parts[i] && init[..i] == parts[..i];
      OccursLeft(Join(init), parts[|parts| - 1], parts[i], |Join(parts[..i])|);
    }
  }

  // ---------------------------------------------------------------------
  // The document

  /** A concatenation starts with its first part. */
  lemma StartsWithConcat(p: string, a: string, b: string, c: string, d: string,
                         e: string, f: string, g: string, h: string, i: string)
    ensures StartsWith(p + a + b + c + d + e + f + g + h + i, p)
  {
    OccursSelf(p);
    OccursLeft(p, a + b + c + d + e + f + g + h + i, p, 0);
    assert p + a + b + c + d + e + f + g + h + i == p + (a + b + c + d + e + f + g + h + i);
  }

  /** A concatenation ends with the last part of its last part. */
  lemma EndsWithConcat(body: string, tail: string, tag: string)
    ensures EndsWith(body + (tail + tag), tag)
  {
    OccursSelf(tag);
    OccursRight(tail, tag, tag, 0);
    OccursRight(body, tail + tag, tag, |tail|);
  }

  /** The report opens with the doctype declaration. */
  lemma DocumentStart(report: Report)
    ensures StartsWith(Text(report), Doctype)
  {
    StartsWithConcat(Doctype, Preamble, Join(MetadataLines(report.meta)), Gap,
                     FilteredHeading, SectionText(report.filtered), "\n        ", QuotesHeading,
                     SectionText(report.quotes), Closing);
  }

  /** The report ends with the closing `html` tag. */
  lemma DocumentEnd(report: Report)
    ensures EndsWith(Text(report), ClosingTag)
  {
    EndsWithConcat(MetadataText(report.meta) + FilteredHeading + SectionText(report.filtered)
                   + "\n        " + QuotesHeading + SectionText(report.quotes),
                   "\n    </div>\n</body>\n", ClosingTag);
  }

  /** In `m + a + b + n + c + d + z`, `a + b` occurs right after `m` and
      `c + d` after it. */
  lemma SectionsInOrder(m: string, a: string, b: string, n: string, c: string, d: string, z: string)
    ensures OccursAt(m + a + b + n + c + d + z, a + b, |m|)
    ensures OccursAt(m + a + b + n + c + d + z, c + d, |m + a + b + n|)
    ensures |m| + |a + b| <= |m + a + b + n|
  {
    OccursSelf(a + b);
    OccursRight(m, a + b, a + b, 0);
    assert m + a + b == m + (a + b);
    OccursLeft(m + a + b, n + c + d + z, a + b, |m|);
    assert m + a + b + n + c + d + z == (m + a + b) + (n + c + d + z);
    OccursSelf(c + d);
    OccursRight(m + a + b + n, c + d, c + d, 0);
    assert m + a + b + n + c + d == (m + a + b + n) + (c + d);
    OccursLeft(m + a + b + n + c + d, z, c + d, |m + a + b + n|);
  }

  /** The filtered-rates heading and its section come first, the all-quotes
      heading and its section after them. */
  lemma SectionOrder(report: Report)
    ensures exists i, j ::
              OccursAt(Text(report), FilteredHeading + SectionText(report.filtered), i) &&
              OccursAt(Text(report), QuotesHeading + SectionText(report.quotes), j) &&
              i + |FilteredHeading + SectionText(report.filtered)| <= j
  {
    var m := MetadataText(report.meta);
    SectionsInOrder(m, FilteredHeading, SectionText(report.filtered), "\n        ",
                    QuotesHeading, SectionText(report.quotes), Closing);
    var i := |m|;
    var j := |m + FilteredHeading + SectionText(report.filtered) + "\n        "|;
    assert OccursAt(Text(report), FilteredHeading + SectionText(report.filtered), i);
  }

  /** An occurrence in `s` survives a prefix and a suffix. */
  lemma OccursMiddle(a: string, s: string, b: string, x: string, k: int)
    requires OccursAt(s, x, k)
    ensures OccursAt(a + s + b, x, |a| + k)
  {
    OccursRight(a, s, x, k);
    OccursLeft(a + s, b, x, |a| + k);
  }

  /** The content of a line occurs in the report wherever the line does. */
  lemma LineContentShown(text: string, content: string)
    requires Contains(text, Line(content))
    ensures Contains(text, content)
  {
    var k :| 0 <= k <= |text| && OccursAt(text, Line(content), k);
    OccursSelf(content);
    OccursMiddle("        ", content, "\n", content, 0);
    OccursWithin(text, Line(content), content, k, 8);
  }

  // ---------------------------------------------------------------------
  // The report of a result dictionary

  /** The six metadata paragraphs, in document order. */
  function MetadataFields(meta: Metadata): seq<string>
  {
    [Field("Generated", meta.generated), Field("Success", meta.success),
     Field("Terms", Link(meta.terms, "Terms of Service")),
     Field("Privacy", Link(meta.privacy, "Privacy Policy")),
     Field("Source Currency", meta.source), Field("Timestamp", meta.timestamp)]
  }

  /** A text holding every metadata line holds every metadata paragraph. */
  lemma FieldsOfLines(text: string, meta: Metadata)
    requires forall i :: 0 <= i < 6 ==> Contains(text, MetadataLines(meta)[i])
    ensures |MetadataFields(meta)| == 6
    ensures forall i :: 0 <= i < 6 ==> Contains(text, MetadataFields(meta)[i])
  {
    var lines, fields := MetadataLines(meta), MetadataFields(meta);
    forall i | 0 <= i < 6
      ensures Contains(text, fields[i])
    {
      assert lines[i] == Line(fields[i]);
      LineContentShown(text, fields[i]);
    }
  }

  /** The metadata lines, embedded in any surrounding text, all occur in it. */
  lemma MetadataEmbedded(p: string, meta: Metadata, a: string, b: string, c: string, d: string,
                         e: string, f: string, g: string)
    ensures forall i :: 0 <= i < 6 ==>
              Contains(p + Join(MetadataLines(meta)) + a + b + c + d + e + f + g, MetadataLines(meta)[i])
  {
    var lines := MetadataLines(meta);
    forall i | 0 <= i < 6
      ensures Contains(p + Join(lines) + a + b + c + d + e + f + g, lines[i])
    {
      JoinOccurs(lines, i);
      OccursEmbedded(p, Join(lines), a, b, c, d, e, f, g, lines[i], |Join(lines[..i])|);
    }
  }

  /** Every metadata paragraph of a report occurs in its text. */
  lemma MetadataShown(report: Report)
    ensures forall i :: 0 <= i < 6 ==> Contains(Text(report), MetadataLines(report.meta)[i])
  {
    MetadataEmbedded(Doctype + Preamble, report.meta, Gap, FilteredHeading, SectionText(report.filtered),
                     "\n        ", QuotesHeading, SectionText(report.quotes), Closing);
  }

  /** The metadata lines of a result's report: its fields as they are, and
      the defaults for the keys that are missing. */
  lemma ReportMetadataLines(input: ReportInput, generatedAt: string,
                            fixed6: real -> string, dateTime: int -> string)
    ensures MetadataLines(Layout(input, generatedAt, fixed6, dateTime).meta) ==
      [Line(Field("Generated", generatedAt)),
       Line(Field("Success", ShowSuccess(input.success))),
       Line(Field("Terms", Link(input.terms.GetOr("N/A"), "Terms of Service"))),
       Line(Field("Privacy", Link(input.privacy.GetOr("N/A"), "Privacy Policy"))),
       Line(Field("Source Currency", input.source.GetOr("USD"))),
       Line(Field("Timestamp", if input.timestamp.Some? then dateTime(input.timestamp.value) else "N/A"))]
  {
  }

  /** The metadata paragraphs a result dictionary should produce: each
      field inserted as it is, or the default for a missing key. */
  function InputFields(input: ReportInput, generatedAt: string, dateTime: int -> string): seq<string>
  {
    [Field("Generated", generatedAt),
     Field("Success", ShowSuccess(input.success)),
     Field("Terms", Link(input.terms.GetOr("N/A"), "Terms of Service")),
     Field("Privacy", Link(input.privacy.GetOr("N/A"), "Privacy Policy")),
     Field("Source Currency", input.source.GetOr("USD")),
     Field("Timestamp", if input.timestamp.Some? then dateTime(input.timestamp.value) else "N/A")]
  }

  /** The layout's metadata paragraphs are those of the input. */
  lemma LayoutFields(input: ReportInput, generatedAt: string,
                     fixed6: real -> string, dateTime: int -> string)
    ensures MetadataFields(Layout(input, generatedAt, fixed6, dateTime).meta)
            == InputFields(input, generatedAt, dateTime)
  {
  }

  /** The document rendered for a result dictionary holds each metadata
      paragraph, with the dictionary's field inserted as it is, or the
      default for a missing key. */
  lemma ReportShowsFields(input: ReportInput, generatedAt: string,
                          fixed6: real -> string, dateTime: int -> string)
    ensures forall i :: 0 <= i < 6 ==>
      Contains(Text(Layout(input, generatedAt, fixed6, dateTime)), InputFields(input, generatedAt, dateTime)[i])
  {
    ReportFieldsShown(Layout(input, generatedAt, fixed6, dateTime));
    LayoutFields(input, generatedAt, fixed6, dateTime);
  }

  /** Every metadata paragraph of a report occurs in its text. */
  lemma ReportFieldsShown(report: Report)
    ensures forall i :: 0 <= i < 6 ==> Contains(Text(report), MetadataFields(report.meta)[i])
  {
    FieldsEmbedded(Doctype + Preamble, report.meta, Gap, FilteredHeading, SectionText(report.filtered),
                   "\n        ", QuotesHeading, SectionText(report.quotes), Closing);
  }

  /** The metadata paragraphs, embedded in any surrounding text, all occur in it. */
  lemma FieldsEmbedded(p: string, meta: Metadata, a: string, b: string, c: string, d: string,
                       e: string, f: string, g: string)
    ensures forall i :: 0 <= i < 6 ==>
              Contains(p + Join(MetadataLines(meta)) + a + b + c + d + e + f + g, MetadataFields(meta)[i])
  {
    MetadataEmbedded(p, meta, a, b, c, d, e, f, g);
    FieldsOfLines(p + Join(MetadataLines(meta)) + a + b + c + d + e + f + g, meta);
  }

  // ---------------------------------------------------------------------
  // Sections

  /** `rows` is the table of `m`: one row per entry, no other rows, in
      strictly ascending pair order, each showing the formatted value. */
  ghost predicate ShowsEntries(rows: seq<Row>, m: map<string, real>, fixed6: real -> string)
  {
    && |rows| == |m|
    && (forall i :: 0 <= i < |rows| ==> rows[i].pair in m && rows[i].rate == fixed6(m[rows[i].pair]))
    && (forall p :: p in m ==> exists i :: 0 <= i < |rows| && rows[i].pair == p)
    && (forall i, j :: 0 <= i < j < |rows| ==> Less(rows[i].pair, rows[j].pair))
  }

  lemma TableRowsShowEntries(m: map<string, real>, fixed6: real -> string)
    ensures ShowsEntries(TableRows(m, fixed6), m, fixed6)
  {
    forall p | p in m
      ensures exists i :: 0 <= i < |TableRows(m, fixed6)| && TableRows(m, fixed6)[i].pair == p
    {
      TableRowsCoverEntries(m, fixed6, p);
    }
  }

  /** No '<' in a placeholder message: its paragraph holds no table. */
  lemma PlaceholderHasNoTable(message: string)
    requires forall i :: 0 <= i < |message| ==> message[i] != '<'
    ensures !Contains(SectionText(Placeholder(message)), "<table>")
  {
    var s := SectionText(Placeholder(message));
    assert s == "<p>" + message + "</p>";
    forall k | 0 <= k && k + 7 <= |s|
      ensures !OccursAt(s, "<table>", k)
    {
      if k < 3 {
        assert s[k..k + 7][0] != '<' || s[k..k + 7][1] != 't';
      } else {
        assert s[k] == message[k - 3];
        assert s[k..k + 7][0] != '<';
      }
    }
  }

  /** A section is the placeholder exactly when its dictionary is empty; the
      placeholder is the message in a paragraph and holds no table, and the
      table shows the dictionary's entries. */
  lemma SectionShape(m: map<string, real>, fixed6: real -> string, message: string)
    requires forall i :: 0 <= i < |message| ==> message[i] != '<'
    ensures var section := SectionOf(m, fixed6, message);
      && (section.Placeholder? <==> m == map[])
      && (section.Placeholder? ==> SectionText(section) == "<p>" + message + "</p>")
      && (section.Placeholder? ==> !Contains(SectionText(section), "<table>"))
      && (section.Table? ==> ShowsEntries(section.rows, m, fixed6))
  {
    if |m| == 0 {
      assert m.Keys == {};
      PlaceholderHasNoTable(message);
    } else {
      TableRowsShowEntries(m, fixed6);
    }
  }

  /** The filtered-rates section: the placeholder exactly when there are no
      rates, and otherwise the table of the rates' values. */
  lemma FilteredRatesSection(input: ReportInput, generatedAt: string,
                             fixed6: real -> string, dateTime: int -> string)
    ensures var section := Layout(input, generatedAt, fixed6, dateTime).filtered;
      && (section.Placeholder? <==> input.rates.GetOr(map[]) == map[])
      && (section.Placeholder? ==> SectionText(section) == "<p>" + NoRatesMessage + "</p>")
      && (section.Placeholder? ==> !Contains(SectionText(section), "<table>"))
      && (section.Table? ==> ShowsEntries(section.rows, RateValues(input.rates.GetOr(map[])), fixed6))
  {
    var rates := input.rates.GetOr(map[]);
    if rates != map[] {
      var p :| p in rates;
      assert p in RateValues(rates);
    }
    NoTagInMessages();
    SectionShape(RateValues(rates), fixed6, NoRatesMessage);
  }

  /** The all-quotes section: the placeholder exactly when there are no
      quotes, and otherwise the table of the quotes. */
  lemma AllQuotesSection(input: ReportInput, generatedAt: string,
                         fixed6: real -> string, dateTime: int -> string)
    ensures var section := Layout(input, generatedAt, fixed6, dateTime).quotes;
      && (section.Placeholder? <==> input.allQuotes.GetOr(map[]) == map[])
      && (section.Placeholder? ==> SectionText(section) == "<p>" + NoQuotesMessage + "</p>")
      && (section.Placeholder? ==> !Contains(SectionText(section), "<table>"))
      && (section.Table? ==> ShowsEntries(section.rows, input.allQuotes.GetOr(map[]), fixed6))
  {
    NoTagInMessages();
    SectionShape(input.allQuotes.GetOr(map[]), fixed6, NoQuotesMessage);
  }

  /** Neither placeholder message contains a '<'. */
  lemma NoTagInMessages()
    ensures forall i :: 0 <= i < |NoRatesMessage| ==> NoRatesMessage[i] != '<'
    ensures forall i :: 0 <= i < |NoQuotesMessage| ==> NoQuotesMessage[i] != '<'
  {
  }

  // ---------------------------------------------------------------------
  // From a fetch to its report

  /** The rates are empty exactly when no requested pair was quoted. */
  lemma NoRatesWhenNothingQuoted(result: ForexClient.FetchResult, requested: seq<string>)
    requires result.rates.Keys == set p | p in requested && ForexClient.QuoteKey(p) in result.allQuotes
    ensures result.rates == map[] <==>
            forall p :: p in requested ==> ForexClient.QuoteKey(p) !in result.allQuotes
  {
    if result.rates == map[] {
      forall p | p in requested
        ensures ForexClient.QuoteKey(p) !in result.allQuotes
      {
        assert p !in result.rates.Keys;
      }
    } else {
      var p :| p in result.rates;
      assert p in requested && ForexClient.QuoteKey(p) in result.allQuotes;
    }
  }

  /** The report of a successful fetch whose rates are the requested pairs
      that were quoted. */
  lemma ResultReport(result: ForexClient.FetchResult, requested: seq<string>,
                     generatedAt: string, fixed6: real -> string, dateTime: int -> string)
    requires result.success
    requires result.rates.Keys == set p | p in requested && ForexClient.QuoteKey(p) in result.allQuotes
    ensures var report := Layout(InputOf(result), generatedAt, fixed6, dateTime);
      && report.meta.success == "True"
      && report.meta.timestamp == dateTime(result.timestamp)
      && (report.filtered.Table? ==>
            forall i :: 0 <= i < |report.filtered.rows| ==> report.filtered.rows[i].pair in requested)
      && (report.filtered.Placeholder? <==>
            forall p :: p in requested ==> ForexClient.QuoteKey(p) !in result.allQuotes)
  {
    FilteredRatesSection(InputOf(result), generatedAt, fixed6, dateTime);
    NoRatesWhenNothingQuoted(result, requested);
    var report := Layout(InputOf(result), generatedAt, fixed6, dateTime);
    assert report.filtered.Placeholder? <==> result.rates == map[];
  }

  /** The report of a successful `get_rates` call says the call succeeded,
      shows the fetch's timestamp, lists only requested pairs in its
      filtered-rates table, and shows the placeholder exactly when none of
      the requested pairs was quoted. */
  lemma FetchReport(requested: seq<string>, data: ForexClient.ProviderReply, now: int,
                    generatedAt: string, fixed6: real -> string, dateTime: int -> string)
    requires ForexClient.Outcome(requested, Some(data), now).Success?
    ensures var result := ForexClient.Outcome(requested, Some(data), now).value;
      var report := Layout(InputOf(result), generatedAt, fixed6, dateTime);
      && report.meta.success == "True"
      && report.meta.timestamp == dateTime(result.timestamp)
      && (report.filtered.Table? ==>
            forall i :: 0 <= i < |report.filtered.rows| ==> report.filtered.rows[i].pair in requested)
      && (report.filtered.Placeholder? <==>
            forall p :: p in requested ==> ForexClient.QuoteKey(p) !in result.allQuotes)
  {
    var result := ForexClient.Outcome(requested, Some(data), now).value;
    ForexClient.ResultFields(requested, data, now);
    ForexClient.RatesAreQuotedRequests(requested, data, now);
    ResultReport(result, requested, generatedAt, fixed6, dateTime);
  }
}
