/** What the renderers put on the page: result cards, the poster choice, the
    rows of the detail view and the result-count line. Markup is kept
    abstract: a card or detail view records the text interpolated into each
    slot of its template, so that it is visible which slots go through
    `escapeHtml` and which are written raw. */
module Render {
  import opened Strings
  import opened Html

  /** The image shown when the provider reports no poster. */
  const FallbackPoster := "/public/images/cinema.webp"

  /** The provider's sentinel for a field without data. */
  const NotApplicable := "N/A"

  /** The poster slot: an image with its `src` and `alt` attributes, or the
      placeholder block, which has no alt text. */
  datatype PosterView = PosterImage(src: string, alt: string) | PosterPlaceholder

  /** The poster of a card or of the detail view: the sentinel becomes the
      fallback image, an absent or empty poster becomes the placeholder block,
      anything else is used as the image source. An image's alt text is the
      title as sent, followed by " poster". */
  function ChoosePoster(poster: Option<string>, title: Option<string>): (v: PosterView)
    ensures v == PosterPlaceholder <==> poster.None? || poster.value == []
    ensures poster == Some(NotApplicable) ==> v.PosterImage? && v.src == FallbackPoster
    ensures v.PosterImage? && poster != Some(NotApplicable) ==> poster == Some(v.src)
    ensures v.PosterImage? ==> v.src != [] && v.src != NotApplicable
    ensures v.PosterImage? ==> v.alt == Show(title) + " poster"
  {
    var chosen := if poster != Some(NotApplicable) then poster else Some(FallbackPoster);
    if chosen.Some? && chosen.value != [] then PosterImage(chosen.value, Show(title) + " poster")
    else PosterPlaceholder
  }

  /** One element of the search response's `Search` array. */
  datatype Movie = Movie(
    title: Option<string>,
    year: Option<string>,
    imdbId: Option<string>,
    kind: Option<string>,
    poster: Option<string>)

  /** The text in each slot of a card's template. */
  datatype Card = Card(
    imdbId: string,      // data-imdb-id attribute
    ariaLabel: string,   // aria-label attribute
    poster: PosterView,
    titleHtml: string,   // heading
    yearText: string,
    kindText: string)

  /** `createMovieCard(movie)`: only the title is escaped; the identifier,
      year, type and the title inside the two attributes are written as the
      provider sent them. */
  function CreateMovieCard(m: Movie): (c: Card)
    ensures IsInert(c.titleHtml)
    ensures m.title.Some? ==> UnescapeText(c.titleHtml) == m.title.value
    ensures c.titleHtml == [] <==> m.title.None? || m.title.value == []
    ensures c.poster == ChoosePoster(m.poster, m.title)
    ensures c.imdbId == Show(m.imdbId) && c.yearText == Show(m.year) && c.kindText == Show(m.kind)
    ensures c.ariaLabel == "View details for " + Show(m.title)
  {
    Card(
      Show(m.imdbId),
      "View details for " + Show(m.title),
      ChoosePoster(m.poster, m.title),
      EscapeHtml(m.title),
      Show(m.year),
      Show(m.kind))
  }

  /** The grid's content for a result list: one card per result, in order. */
  function Cards(movies: seq<Movie>): (cards: seq<Card>)
    ensures |cards| == |movies|
    ensures forall i :: 0 <= i < |movies| ==> cards[i] == CreateMovieCard(movies[i])
  {
    seq(|movies|, i requires 0 <= i < |movies| => CreateMovieCard(movies[i]))
  }

  /** The title reaches the alt attribute of a card raw: a title holding a
      double quote ends the attribute early. */
  lemma CardAltTextIsRaw(m: Movie)
    requires m.title.Some? && m.poster.Some? && m.poster.value != []
    ensures CreateMovieCard(m).poster.PosterImage?
    ensures Contains(CreateMovieCard(m).poster.alt, m.title.value)
    ensures '"' in m.title.value ==> '"' in CreateMovieCard(m).poster.alt
  {
    ContainsSpliced([], m.title.value, " poster");
    assert CreateMovieCard(m).poster.alt == [] + m.title.value + " poster";
  }

  // ---- Detail view ----

  /** A value the detail view leaves out: absent, empty or the sentinel. */
  predicate Omitted(value: Option<string>) {
    value.None? || value.value == [] || value.value == NotApplicable
  }

  /** A spec row of the detail view: nothing (the empty string), or the
      text in its label slot and in its value slot. The label slot is followed
      by a colon in the template. */
  datatype SpecRowView = NoRow | SpecRow(labelText: string, valueHtml: string)

  /** `createSpecRow(name, value)`: no row when the value is omitted,
      otherwise a row whose label is the name and whose value slot holds only
      the escaped value, which is inert and decodes back to the value. */
  function CreateSpecRow(name: string, value: Option<string>): (r: SpecRowView)
    ensures r == NoRow <==> Omitted(value)
    ensures r.SpecRow? ==> r.labelText == name && r.valueHtml == EscapeHtml(value)
    ensures r.SpecRow? ==> r.valueHtml != [] && IsInert(r.valueHtml)
    ensures r.SpecRow? ==> UnescapeText(r.valueHtml) == value.value
  {
    if Omitted(value) then NoRow else SpecRow(name, EscapeHtml(value))
  }

  /** The record of a detail request. */
  datatype Detail = Detail(
    title: Option<string>, year: Option<string>, rated: Option<string>,
    runtime: Option<string>, imdbRating: Option<string>, plot: Option<string>,
    genre: Option<string>, director: Option<string>, writer: Option<string>,
    actors: Option<string>, language: Option<string>, country: Option<string>,
    awards: Option<string>, boxOffice: Option<string>, poster: Option<string>)

  const SpecLabels: seq<string> :=
    ["Genre", "Director", "Writer", "Actors", "Language", "Country", "Awards", "Box Office"]

  function SpecValues(d: Detail): seq<Option<string>> {
    [d.genre, d.director, d.writer, d.actors, d.language, d.country, d.awards, d.boxOffice]
  }

  /** The text in each slot of the detail template. */
  datatype DetailView = DetailView(
    poster: PosterView,
    titleHtml: string,
    meta: seq<string>,     // year, rating label, runtime, score line
    plotHtml: string,
    specRows: seq<SpecRowView>)

  /** `displayMovieDetails(movie)`, the markup part: title, plot and the spec
      values are escaped; the meta line and the poster's alt text are written
      raw; one row per label, in order, empty when its value is omitted. */
  function DetailViewOf(d: Detail): (v: DetailView)
    ensures v.titleHtml == EscapeHtml(d.title) && v.plotHtml == EscapeHtml(d.plot)
    ensures IsInert(v.titleHtml) && IsInert(v.plotHtml)
    ensures d.title.Some? ==> UnescapeText(v.titleHtml) == d.title.value
    ensures d.plot.Some? ==> UnescapeText(v.plotHtml) == d.plot.value
    ensures v.meta == [Show(d.year), Show(d.rated), Show(d.runtime), "⭐ " + Show(d.imdbRating) + "/10"]
    ensures |v.specRows| == |SpecLabels|
    ensures forall i :: 0 <= i < |SpecLabels| ==>
      (v.specRows[i] == NoRow <==> Omitted(SpecValues(d)[i]))
    ensures forall i :: 0 <= i < |SpecLabels| && !Omitted(SpecValues(d)[i]) ==>
      v.specRows[i] == SpecRow(SpecLabels[i], EscapeHtml(SpecValues(d)[i]))
    ensures v.poster == ChoosePoster(d.poster, d.title)
  {
    var values := SpecValues(d);
    DetailView(
      ChoosePoster(d.poster, d.title),
      EscapeHtml(d.title),
      [Show(d.year), Show(d.rated), Show(d.runtime), "⭐ " + Show(d.imdbRating) + "/10"],
      EscapeHtml(d.plot),
      seq(|SpecLabels|, i requires 0 <= i < |SpecLabels| => CreateSpecRow(SpecLabels[i], values[i])))
  }

  /** A record without a box-office figure gets no Box Office row. */
  lemma NoBoxOfficeRow(d: Detail)
    requires d.boxOffice.None? || d.boxOffice == Some(NotApplicable)
    ensures DetailViewOf(d).specRows[7] == NoRow
  {
    assert SpecValues(d)[7] == d.boxOffice;
  }

  // ---- Result-count line ----

  const StatsLead := "Found "
  const PluralTail := " results for \""
  const SingularTail := " result for \""

  /** What follows the count: "result", pluralised unless the count is one. */
  function CountTail(count: nat): string {
    if count != 1 then PluralTail else SingularTail
  }

  /** `updateSearchStats(count, query)`: the empty string for no results,
      otherwise the count, "result" pluralised unless the count is one, and
      the query in double quotes. */
  function StatsText(count: nat, query: string): (r: string)
    ensures r == [] <==> count == 0
    ensures count > 0 ==> StatsLead <= r && r[|r| - 1] == '"'
  {
    if count > 0 then
      StatsLead + (Decimal(count) + (CountTail(count) + query + "\""))
    else ""
  }

  /** Reads a result-count line back: the count and the query, or `None`
      when the text is not such a line. */
  function ParseStats(t: string): Option<(nat, string)> {
    if StatsLead <= t then ParseCount(t[|StatsLead|..]) else None
  }

  function ParseCount(s: string): Option<(nat, string)> {
    var k := LeadingDigits(s);
    if k == 0 then None else ParseTail(DigitsValue(s[..k]), s[k..])
  }

  function ParseTail(n: nat, tail: string): Option<(nat, string)> {
    var plural := PluralTail <= tail;
    if !plural && !(SingularTail <= tail) then None
    else
      var quoted := if plural then tail[|PluralTail|..] else tail[|SingularTail|..];
      if quoted == [] || quoted[|quoted| - 1] != '"' || n == 0 || plural != (n != 1) then None
      else Some((n, quoted[..|quoted| - 1]))
  }

  /** The number of decimal digits at the start of `s`. */
  function LeadingDigits(s: string): (k: nat)
    ensures k <= |s| && AllDigits(s[..k])
    decreases |s|
  {
    if s != [] && IsDigit(s[0]) then
      var k := 1 + LeadingDigits(s[1..]);
      assert s[..k] == [s[0]] + s[1..][..k - 1];
      k
    else 0
  }

  lemma {:induction false} LeadingDigitsOf(d: string, x: string)
    requires AllDigits(d) && x != [] && !IsDigit(x[0])
    ensures LeadingDigits(d + x) == |d|
    decreases |d|
  {
    var t := d + x;
    if d != [] {
      assert t[0] == d[0] && IsDigit(t[0]);
      assert t[1..] == d[1..] + x;
      assert AllDigits(d[1..]) by {
        forall k | 0 <= k < |d| - 1 ensures IsDigit(d[1..][k]) {
          assert d[1..][k] == d[k + 1];
        }
      }
      LeadingDigitsOf(d[1..], x);
    } else {
      assert t == x;
    }
  }

  lemma ParseStatsOf(rest: string)
    ensures ParseStats(StatsLead + rest) == ParseCount(rest)
  {
    assert StatsLead <= StatsLead + rest;
    assert (StatsLead + rest)[|StatsLead|..] == rest;
  }

  lemma ParseCountOf(d: string, tail: string)
    requires d != [] && AllDigits(d) && tail != [] && !IsDigit(tail[0])
    ensures ParseCount(d + tail) == ParseTail(DigitsValue(d), tail)
  {
    LeadingDigitsOf(d, tail);
    assert (d + tail)[..|d|] == d;
    assert (d + tail)[|d|..] == tail;
  }

  lemma ParseTailOf(count: nat, query: string)
    requires count > 0
    ensures ParseTail(count, CountTail(count) + query + "\"") == Some((count, query))
  {
    var tailText := CountTail(count);
    var tail := tailText + query + "\"";
    assert tailText <= tail;
    if count == 1 {
      assert tail[7] != PluralTail[7];
    }
    assert tail[|tailText|..] == query + "\"";
    assert (query + "\"")[..|query|] == query;
  }

  /** The result-count line determines the count and the query. */
  lemma StatsRoundTrip(count: nat, query: string)
    requires count > 0
    ensures ParseStats(StatsText(count, query)) == Some((count, query))
  {
    var d := Decimal(count);
    var tail := CountTail(count) + query + "\"";
    ParseStatsOf(d + tail);
    ParseCountOf(d, tail);
    DecimalRoundTrip(count);
    ParseTailOf(count, query);
  }
}
