/** The entitlement check `is_premium` and what a grant does to it. */
module Entitlement {
  import opened Wrappers
  import opened Store

  /** A grant made on day `d` expires on day `d + ENTITLEMENT_DAYS`. */
  const ENTITLEMENT_DAYS := 30

  /** `SELECT * FROM premium_users WHERE payment_id=? AND expiry>=?`
      followed by `fetchone() is not None`: some row for the identifier has
      not expired. */
  function HasEntitlement(rows: seq<PremiumRow>, paymentId: string, today: int): (found: bool)
    ensures found <==> exists i :: 0 <= i < |rows| && rows[i].paymentId == paymentId && rows[i].expiry >= today
  {
    if rows == [] then false
    else
      || (rows[0].paymentId == paymentId && rows[0].expiry >= today)
      || HasEntitlement(rows[1..], paymentId, today)
  }

  /** `is_premium`: false when the session holds no payment identifier or an
      empty one; otherwise whether the identifier has an unexpired row. It
      reads the session and the table and changes neither. */
  function IsPremium(session: Option<string>, rows: seq<PremiumRow>, today: int): (premium: bool)
    ensures premium <==>
      && session.Some?
      && session.value != ""
      && exists i :: 0 <= i < |rows| && rows[i].paymentId == session.value && rows[i].expiry >= today
  {
    match session
    case None => false
    case Some(paymentId) => paymentId != "" && HasEntitlement(rows, paymentId, today)
  }

  /** After a grant of `paymentId` on day `today`, a session holding that
      identifier is premium on day `d` exactly when the identifier is not
      empty and either `d` is at most thirty days on or the identifier
      already had a row unexpired on day `d`. */
  lemma GrantEntitles(paymentId: string, rows: seq<PremiumRow>, today: int, d: int)
    ensures IsPremium(Some(paymentId), rows + [PremiumRow(paymentId, today + ENTITLEMENT_DAYS)], d)
      <==> paymentId != "" && (d <= today + ENTITLEMENT_DAYS || IsPremium(Some(paymentId), rows, d))
  {
    var granted := rows + [PremiumRow(paymentId, today + ENTITLEMENT_DAYS)];
    if paymentId != "" && d <= today + ENTITLEMENT_DAYS {
      assert granted[|rows|].paymentId == paymentId && granted[|rows|].expiry >= d;
    }
    if IsPremium(Some(paymentId), rows, d) {
      var i :| 0 <= i < |rows| && rows[i].paymentId == paymentId && rows[i].expiry >= d;
      assert granted[i] == rows[i];
    }
  }

  /** A grant for one identifier leaves every other session's status alone. */
  lemma GrantLeavesOtherSessions(session: Option<string>, rows: seq<PremiumRow>, row: PremiumRow, d: int)
    requires session != Some(row.paymentId)
    ensures IsPremium(session, rows + [row], d) == IsPremium(session, rows, d)
  {
    if IsPremium(session, rows, d) {
      var i :| 0 <= i < |rows| && rows[i].paymentId == session.value && rows[i].expiry >= d;
      assert (rows + [row])[i] == rows[i];
    }
  }
}
