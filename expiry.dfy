/** The expiry advisor's arithmetic shared by both scripts: days left
    until an expiry date and the three-way urgency tier of the alert cards. */
module Expiry {

  /** `(expiry - today).days` on day numbers: the expiry date lies
      `r` days after `today` (before it when `r` is negative). */
  function DaysLeft(expiry: int, today: int): (r: int)
    ensures today + r == expiry
    ensures r < 0 <==> expiry < today
  {
    expiry - today
  }

  /** How an alert card is coloured: past its date, due within three days, or fine. */
  datatype Tier = Expired | Urgent | Fine

  /** The card colour chosen from the days left: `days < 0` is an error card,
      otherwise `days <= 3` a warning card, otherwise a success card. */
  function TierOf(days: int): (t: Tier)
    ensures t == Expired <==> days < 0
    ensures t == Urgent <==> 0 <= days <= 3
    ensures t == Fine <==> 3 < days
  {
    if days < 0 then Expired
    else if days <= 3 then Urgent
    else Fine
  }

  function Severity(t: Tier): nat
  {
    match t
    case Expired => 2
    case Urgent => 1
    case Fine => 0
  }

  /** An item with fewer days left is never in a calmer tier. */
  lemma TierMonotone(d1: int, d2: int)
    requires d1 <= d2
    ensures Severity(TierOf(d2)) <= Severity(TierOf(d1))
  {
  }

  /** The note under the session variant's alert metrics calls an item
      expired when its days left are zero or fewer. */
  predicate NoteCallsExpired(days: int)
  {
    days <= 0
  }

  /** The card tier and the note disagree on exactly one value: an item
      due today is urgent for the card and expired for the note. */
  lemma TierAndNoteDisagreeOnlyOnDueToday(days: int)
    ensures (TierOf(days) == Expired) != NoteCallsExpired(days) <==> days == 0
    ensures TierOf(0) == Urgent && NoteCallsExpired(0)
  {
  }
}
