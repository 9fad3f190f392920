/** `parseDate` from cmd/gator/main.go: a publication date is tried against a
    fixed list of layouts, in order, and the first layout that accepts it
    wins. Go's `time.Parse(layout, value)` is the parameter `parse`. */
module Dates {
  import opened Common

  /** Go's `time.RFC1123`: the date syntax of section 5 of RFC 822 as
      amended by section 5.2.14 of RFC 1123, with a zone abbreviation. */
  const RFC1123 := "Mon, 02 Jan 2006 15:04:05 MST"
  /** Go's `time.RFC1123Z`: the same with a numeric zone. */
  const RFC1123Z := "Mon, 02 Jan 2006 15:04:05 -0700"
  /** Go's `time.RFC3339`: section 5.6 of RFC 3339. */
  const RFC3339 := "2006-01-02T15:04:05Z07:00"
  const DateOnly := "2006-01-02"
  const DayMonthYear := "02 Jan 2006"

  /** The layouts, in the order they are tried. */
  const TimeFormats: seq<string> := [RFC1123, RFC1123Z, RFC3339, DateOnly, DayMonthYear]

  /** The position of the first layout that accepts `s`. */
  function FirstMatch(formats: seq<string>, s: string, parse: (string, string) -> Option<Time>): (r: Option<nat>)
    ensures r.None? <==> forall j :: 0 <= j < |formats| ==> parse(formats[j], s).None?
    ensures r.Some? ==> r.value < |formats| && parse(formats[r.value], s).Some?
    ensures r.Some? ==> forall j :: 0 <= j < r.value ==> parse(formats[j], s).None?
  {
    if formats == [] then None
    else if parse(formats[0], s).Some? then Some(0)
    else match FirstMatch(formats[1..], s, parse)
      case None => None
      case Some(k) => Some(k + 1)
  }

  /** `parseDate(s)`: the time read by the first layout that accepts `s`;
      the "unfamiliar time format" error, with the zero time, only when
      every layout rejects it. */
  method ParseDate(s: string, parse: (string, string) -> Option<Time>) returns (t: Time, err: Option<Error>)
    ensures err.None? <==> exists j :: 0 <= j < |TimeFormats| && parse(TimeFormats[j], s).Some?
    ensures err.Some? ==> err == Some(UnfamiliarTimeFormat) && t == ZeroTime
    ensures err.None? ==>
      var k := FirstMatch(TimeFormats, s, parse).value;
      parse(TimeFormats[k], s) == Some(t) && forall j :: 0 <= j < k ==> parse(TimeFormats[j], s).None?
  {
    var i := 0;
    while i < |TimeFormats|
      invariant 0 <= i <= |TimeFormats|
      invariant forall j :: 0 <= j < i ==> parse(TimeFormats[j], s).None?
    {
      var ptime := parse(TimeFormats[i], s);
      if ptime.None? {
        i := i + 1;
        continue;
      }
      assert FirstMatch(TimeFormats, s, parse) == Some(i);
      return ptime.value, None;
    }
    return ZeroTime, Some(UnfamiliarTimeFormat);
  }

  /** The normalised publication date of an item: absent when the pointer is
      nil or the string empty, or when no layout accepts it. */
  function PublishedAt(pubDate: Option<string>, parse: (string, string) -> Option<Time>): (r: Option<Time>)
    ensures r.Some? <==>
      pubDate.Some? && pubDate.value != "" &&
      exists j :: 0 <= j < |TimeFormats| && parse(TimeFormats[j], pubDate.value).Some?
    ensures r.Some? ==>
      exists k :: && 0 <= k < |TimeFormats| && parse(TimeFormats[k], pubDate.value) == r
                  && forall j :: 0 <= j < k ==> parse(TimeFormats[j], pubDate.value).None?
  {
    if pubDate.None? || pubDate.value == "" then None
    else match FirstMatch(TimeFormats, pubDate.value, parse)
      case None => None
      case Some(k) => parse(TimeFormats[k], pubDate.value)
  }

  /** A value the first layout, RFC 1123, accepts is read by it, whatever
      the later layouts say. (That a value every layout rejects is dropped
      is `PublishedAt`'s own contract.) */
  lemma FirstLayoutWins(s: string, parse: (string, string) -> Option<Time>)
    requires s != "" && parse(RFC1123, s).Some?
    ensures PublishedAt(Some(s), parse) == parse(RFC1123, s)
  {
  }
}
