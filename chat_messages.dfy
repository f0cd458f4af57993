/**
 * Rendering of the transcript (ChatMessages.tsx): the relative-time label of
 * a message, the rule that decides which messages carry a price chart, and
 * the one-to-one, in-order mapping of transcript entries to message views.
 */
module ChatMessages {
  import opened Wrappers
  import opened Text
  import opened ChatInterface

  /** `Math.round(diffMs / 60000)` for an integer `diffMs`: the nearest minute, halves rounding up. */
  function RoundedMinutes(diffMs: int): int {
    (diffMs + 30000) / 60000
  }

  /** The plural suffix of the template strings: "s" only above one. */
  function Plural(n: int): string {
    if n > 1 then "s" else ""
  }

  /** `formatTimestamp(date)` evaluated at time `now`; both are milliseconds since the epoch. */
  function FormatTimestamp(timestamp: Option<int>, now: int): string {
    if timestamp.None? then ""
    else
      var diffMins := RoundedMinutes(now - timestamp.value);
      if diffMins < 1 then "just now"
      else if diffMins < 60 then NatToString(diffMins) + " min ago"
      else
        var diffHours := diffMins / 60;
        if diffHours < 24 then NatToString(diffHours) + " hour" + Plural(diffHours) + " ago"
        else
          var diffDays := diffHours / 24;
          NatToString(diffDays) + " day" + Plural(diffDays) + " ago"
  }

  /** No timestamp, no label; a timestamp always gets a non-empty one. */
  lemma LabelPresentIffTimestamp(timestamp: Option<int>, now: int)
    ensures FormatTimestamp(timestamp, now) == "" <==> timestamp.None?
  {
    if timestamp.Some? {
      var d := RoundedMinutes(now - timestamp.value);
      if d >= 1 {
        assert |NatToString(d)| > 0;
        assert |NatToString(d / 60)| > 0;
        assert |NatToString(d / 60 / 24)| > 0;
      }
    }
  }

  /**
   * "just now" exactly when the message is less than half a minute old,
   * which includes every timestamp in the future.
   */
  lemma JustNowIffUnderHalfMinute(timestamp: int, now: int)
    ensures FormatTimestamp(Some(timestamp), now) == "just now" <==> now - timestamp < 30000
  {
    var shown := FormatTimestamp(Some(timestamp), now);
    if now - timestamp >= 30000 {
      assert shown[|shown| - 1] == 'o';
      assert "just now"[7] == 'w';
    }
  }

  /** Between half a minute and 59.5 minutes: "m min ago" with m the nearest whole minute, 1 to 59. */
  lemma MinutesLabel(timestamp: int, now: int)
    requires 30000 <= now - timestamp < 3570000
    ensures exists m: nat :: (
      && 1 <= m <= 59
      && FormatTimestamp(Some(timestamp), now) == NatToString(m) + " min ago"
      && m * 60000 - 30000 <= now - timestamp < m * 60000 + 30000)
  {
    var m := RoundedMinutes(now - timestamp);
    assert 1 <= m <= 59;
    assert FormatTimestamp(Some(timestamp), now) == NatToString(m) + " min ago";
  }

  /** From 59.5 minutes to 23 h 59.5 min: "h hour(s) ago" with h whole hours of the rounded age, 1 to 23. */
  lemma HoursLabel(timestamp: int, now: int)
    requires 3570000 <= now - timestamp < 86370000
    ensures exists h: nat :: (
      && 1 <= h <= 23
      && FormatTimestamp(Some(timestamp), now) == NatToString(h) + " hour" + Plural(h) + " ago"
      && h * 3600000 - 30000 <= now - timestamp < (h + 1) * 3600000 - 30000)
  {
    var m := RoundedMinutes(now - timestamp);
    assert 60 <= m < 1440;
    var h := m / 60;
    assert 1 <= h <= 23;
    assert FormatTimestamp(Some(timestamp), now) == NatToString(h) + " hour" + Plural(h) + " ago";
  }

  /** From 23 h 59.5 min on: "d day(s) ago" with d whole days of the rounded age, at least 1. */
  lemma DaysLabel(timestamp: int, now: int)
    requires now - timestamp >= 86370000
    ensures exists d: nat :: (
      && d >= 1
      && FormatTimestamp(Some(timestamp), now) == NatToString(d) + " day" + Plural(d) + " ago"
      && d * 86400000 - 30000 <= now - timestamp < (d + 1) * 86400000 - 30000)
  {
    var m := RoundedMinutes(now - timestamp);
    assert m >= 1440;
    var d := m / 60 / 24;
    assert d == m / 1440;
    assert d >= 1;
    assert FormatTimestamp(Some(timestamp), now) == NatToString(d) + " day" + Plural(d) + " ago";
  }

  /** `!isUser && message.cryptoSymbol`: `null`, `undefined` and "" are all falsy. */
  predicate ShowsChart(m: Message) {
    m.role != User && m.cryptoSymbol.Some? && m.cryptoSymbol.value != ""
  }

  /** What `ChatMessage` draws: the bubble side, the text, the chart's symbol if any, the time label if any. */
  datatype MessageView = MessageView(fromUser: bool, text: string, chart: Option<string>, timeLabel: Option<string>)

  /** `ChatMessage` for one transcript entry at time `now`. */
  function RenderMessage(m: Message, now: int): (v: MessageView)
    ensures v.chart.Some? <==> ShowsChart(m)
    ensures v.chart.Some? ==> v.chart == m.cryptoSymbol
    ensures v.timeLabel.Some? <==> m.timestamp.Some?
  {
    MessageView(
      m.role == User,
      m.content,
      if ShowsChart(m) then m.cryptoSymbol else None,
      if m.timestamp.Some? then Some(FormatTimestamp(m.timestamp, now)) else None)
  }

  /** `messages.map(...)` in `ChatMessages`: one view per entry, in transcript order. */
  function RenderMessages(ms: seq<Message>, now: int): (r: seq<MessageView>)
    ensures |r| == |ms|
    ensures forall i :: 0 <= i < |ms| ==> r[i] == RenderMessage(ms[i], now)
  {
    if ms == [] then [] else [RenderMessage(ms[0], now)] + RenderMessages(ms[1..], now)
  }

  /** Rendering a longer transcript renders the old part the same way and the new part after it. */
  lemma {:induction false} RenderAppend(ms: seq<Message>, more: seq<Message>, now: int)
    ensures RenderMessages(ms + more, now) == RenderMessages(ms, now) + RenderMessages(more, now)
  {
    var all := RenderMessages(ms + more, now);
    var parts := RenderMessages(ms, now) + RenderMessages(more, now);
    assert |all| == |parts|;
    forall i | 0 <= i < |all| ensures all[i] == parts[i] {
      if i < |ms| {
        assert (ms + more)[i] == ms[i];
      } else {
        assert (ms + more)[i] == more[i - |ms|];
      }
    }
  }
}
