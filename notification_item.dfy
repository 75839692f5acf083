/** One notification card (frontend/src/components/NotificationItem.tsx):
    the date label, read from the first ten characters of the timestamp
    and turned from year-month-day into day/month/year, and the
    mark-as-read button, shown only for an unread notification. */
module NotificationItem {
  import opened Common
  import opened Text
  import opened Schemas

  /** A destructured array element that is missing renders as
      "undefined" in a template string. */
  function PartOr(parts: seq<string>, i: nat): string {
    if i < |parts| then parts[i] else "undefined"
  }

  /** `convertDate`: split on "-" and print the third, second and first
      parts joined by "/". */
  function ConvertDate(date: string): string {
    var parts := Split(date, "-");
    PartOr(parts, 2) + "/" + PartOr(parts, 1) + "/" + PartOr(parts, 0)
  }

  /** A year, month and day with no "-" in them come back as day/month/year. */
  lemma {:induction false} ConvertDateOfParts(y: string, m: string, d: string)
    requires '-' !in y && '-' !in m && '-' !in d
    ensures ConvertDate(y + "-" + m + "-" + d) == d + "/" + m + "/" + y
  {
    assert y + "-" + m + "-" + d == y + ['-'] + (m + ['-'] + d);
    SplitAtFirst(y, '-', m + ['-'] + d);
    SplitAtFirst(m, '-', d);
    SplitNoSep(d, '-');
    assert Split(y + "-" + m + "-" + d, "-") == [y, m, d];
  }

  /** A date with no "-" at all yields its whole text as the year and
      "undefined" for the day and the month. */
  lemma {:induction false} ConvertDateWithoutDashes(s: string)
    requires '-' !in s
    ensures ConvertDate(s) == "undefined/undefined/" + s
  {
    SplitNoSep(s, '-');
  }

  /** The first ten characters of a timestamp, or all of it when it is
      shorter, as `created_at.slice(0, 10)` takes them. */
  function FirstTen(createdAt: string): (t: string)
    ensures t == createdAt[..if |createdAt| <= 10 then |createdAt| else 10]
  {
    if |createdAt| <= 10 then createdAt else createdAt[..10]
  }

  /** A timestamp that starts with a `YYYY-MM-DD` date: dashes at positions
      4 and 7 and none inside the three parts. */
  predicate StartsWithIsoDate(createdAt: string) {
    && |createdAt| >= 10 && createdAt[4] == '-' && createdAt[7] == '-'
    && '-' !in createdAt[..4] && '-' !in createdAt[5..7] && '-' !in createdAt[8..10]
  }

  /** The label under a card: `convertDate` of the first ten characters.
      A timestamp that starts with an ISO date is labelled day/month/year;
      one whose first ten characters hold no dash is labelled with them as
      the year and "undefined" for the day and the month. */
  function DateLabel(createdAt: string): (r: string)
    ensures StartsWithIsoDate(createdAt) ==>
              r == createdAt[8..10] + "/" + createdAt[5..7] + "/" + createdAt[..4]
    ensures '-' !in FirstTen(createdAt) ==> r == "undefined/undefined/" + FirstTen(createdAt)
  {
    var t := FirstTen(createdAt);
    if StartsWithIsoDate(createdAt) then
      assert t == createdAt[..4] + "-" + createdAt[5..7] + "-" + createdAt[8..10];
      ConvertDateOfParts(createdAt[..4], createdAt[5..7], createdAt[8..10]);
      ConvertDate(t)
    else if '-' !in t then
      ConvertDateWithoutDashes(t);
      ConvertDate(t)
    else
      ConvertDate(t)
  }

  lemma DateLabelOfIsoTimestamp()
    ensures DateLabel("2025-04-25T10:00:00Z") == "25/04/2025"
  {
    var stamp := "2025-04-25T10:00:00Z";
    assert stamp[..4] == "2025" && stamp[5..7] == "04" && stamp[8..10] == "25";
    assert StartsWithIsoDate(stamp);
    assert "25" + "/" + "04" + "/" + "2025" == "25/04/2025";
  }

  /** The mark-as-read button: present only while the notification is
      unread, and a click reports the notification's own id. */
  function MarkButton(n: NotificationRead): (click: Option<int>)
    ensures click.Some? <==> !n.isRead
    ensures click.Some? ==> click.value == n.id
  {
    if n.isRead then None else Some(n.id)
  }
}
