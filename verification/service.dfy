/** The application's state (the two tables and one client's session) and
    the request handlers that change it: the quota gate `check_limit`, the
    grant in `payment_success` and the upload branch of `index`. */
module Service {
  import opened Wrappers
  import opened Store
  import opened Entitlement
  import opened Naming

  /** Free conversions per client address per day. */
  const DAILY_LIMIT := 3

  /** What a handler answers. */
  datatype Response =
    | Redirect(location: string)
    | Text(body: string)
      /** `send_file` of the output, after the upload was saved and the
          image re-encoded (converted to RGB first when `rgb` holds). */
    | SendFile(upload: string, output: string, rgb: bool)
      /** A form field was missing: Flask answers 400. */
    | BadRequest
      /** No conversion branch matched, so `output_path` is unbound when it
          is sent; the upload had already been saved. */
    | NoOutputPath(upload: string)

  class App {
    var limitUsage: seq<UsageRow>
    var premiumUsers: seq<PremiumRow>
    /** `session.get("payment_id")` for the one client being modelled. */
    var sessionPaymentId: Option<string>

    /** `init_db` on a database that may already hold rows (`CREATE TABLE
        IF NOT EXISTS` keeps them), for a client with an empty session. */
    constructor (usage: seq<UsageRow>, premium: seq<PremiumRow>)
      ensures limitUsage == usage && premiumUsers == premium && sessionPaymentId == None
    {
      limitUsage := usage;
      premiumUsers := premium;
      sessionPaymentId := None;
    }

    /** `check_limit(ip)` on day `today`; `ip` is `None` when the request
        has no client address and is then bound as NULL. A premium session
        is admitted and nothing is counted. Otherwise the first row selected
        for (ip, today) decides: none means a row with count 1 is inserted
        and the request admitted; a count of 3 or more means denial with no
        change; a smaller count means every selected row is incremented and
        the request admitted. A NULL address never selects a row, so a
        non-premium request without one is always admitted and adds another
        row. */
    method CheckLimit(ip: Option<string>, today: int) returns (admitted: bool)
      modifies this`limitUsage
      ensures IsPremium(sessionPaymentId, premiumUsers, today) ==>
        admitted && limitUsage == old(limitUsage)
      ensures !IsPremium(sessionPaymentId, premiumUsers, today) ==>
        match FirstMatch(old(limitUsage), ip, today)
        case None =>
          admitted && limitUsage == old(limitUsage) + [UsageRow(ip, today, 1)]
        case Some(i) =>
          if old(limitUsage)[i].count >= DAILY_LIMIT then
            !admitted && limitUsage == old(limitUsage)
          else
            admitted && limitUsage == IncrementMatching(old(limitUsage), ip, today)
      ensures ip.None? ==> admitted
      // the quota as the counts a point query reads
      ensures admitted <==>
        IsPremium(sessionPaymentId, premiumUsers, today) || Used(old(limitUsage), ip, today) < DAILY_LIMIT
      ensures Tally(limitUsage) ==
        if admitted && !IsPremium(sessionPaymentId, premiumUsers, today) && ip.Some?
        then Tally(old(limitUsage))[(ip.value, today) := Used(old(limitUsage), ip, today) + 1]
        else Tally(old(limitUsage))
      ensures AtMostOneRowPerKey(old(limitUsage)) ==> AtMostOneRowPerKey(limitUsage)
    {
      if IsPremium(sessionPaymentId, premiumUsers, today) {
        return true;
      }
      var row := FirstMatch(limitUsage, ip, today);
      if ip.Some? {
        FirstMatchReadsTally(limitUsage, ip.value, today);
      }
      if row.Some? {
        if limitUsage[row.value].count >= DAILY_LIMIT {
          return false;
        }
        IncrementMatchingTally(limitUsage, ip.value, today);
        limitUsage := IncrementMatching(limitUsage, ip, today);
      } else {
        AppendTally(limitUsage, UsageRow(ip, today, 1));
        limitUsage := limitUsage + [UsageRow(ip, today, 1)];
      }
      return true;
    }

    /** The grant in `payment_success`. `verified` is whether the gateway's
        signature check (and the reading of the form fields it needs)
        succeeded. On failure nothing changes; on success a row expiring
        thirty days on is appended and the session's identifier is replaced
        by the new one, which is then premium through that day. Whatever the
        identifier held before entitled the session to no longer counts. */
    method PaymentSuccess(verified: bool, paymentId: string, today: int) returns (response: Response)
      modifies this`premiumUsers, this`sessionPaymentId
      ensures !verified ==>
        && response == Text("Payment verification failed")
        && premiumUsers == old(premiumUsers)
        && sessionPaymentId == old(sessionPaymentId)
      ensures verified ==>
        && response == Redirect("/")
        && premiumUsers == old(premiumUsers) + [PremiumRow(paymentId, today + ENTITLEMENT_DAYS)]
        && sessionPaymentId == Some(paymentId)
      ensures verified ==> forall d :: IsPremium(sessionPaymentId, premiumUsers, d) <==>
        paymentId != "" && (d <= today + ENTITLEMENT_DAYS || IsPremium(Some(paymentId), old(premiumUsers), d))
    {
      if !verified {
        return Text("Payment verification failed");
      }
      ghost var before := premiumUsers;
      premiumUsers := premiumUsers + [PremiumRow(paymentId, today + ENTITLEMENT_DAYS)];
      sessionPaymentId := Some(paymentId);
      forall d
        ensures IsPremium(sessionPaymentId, premiumUsers, d) <==>
          paymentId != "" && (d <= today + ENTITLEMENT_DAYS || IsPremium(Some(paymentId), before, d))
      {
        GrantEntitles(paymentId, before, today, d);
      }
      return Redirect("/");
    }

    /** A `POST` to `index` from `ip` on day `today` (`None`: the request
        has no client address). `filename` and `convertType` are the form's
        `image` file name and `type` field, absent when the form lacks them.
        The quota is checked before anything else, so a denied request
        touches no file. */
    method Index(ip: Option<string>, today: int, filename: Option<string>, convertType: Option<string>)
      returns (response: Response)
      modifies this`limitUsage
      ensures response == Redirect("/premium") <==>
        !IsPremium(sessionPaymentId, premiumUsers, today) && Used(old(limitUsage), ip, today) >= DAILY_LIMIT
      ensures response == Redirect("/premium") ==> limitUsage == old(limitUsage)
      ensures response != Redirect("/premium") ==>
        limitUsage ==
          if IsPremium(sessionPaymentId, premiumUsers, today) then old(limitUsage)
          else match FirstMatch(old(limitUsage), ip, today)
            case None => old(limitUsage) + [UsageRow(ip, today, 1)]
            case Some(_) => IncrementMatching(old(limitUsage), ip, today)
      ensures response != Redirect("/premium") ==>
        Tally(limitUsage) ==
          if IsPremium(sessionPaymentId, premiumUsers, today) || ip.None? then Tally(old(limitUsage))
          else Tally(old(limitUsage))[(ip.value, today) := Used(old(limitUsage), ip, today) + 1]
      ensures AtMostOneRowPerKey(old(limitUsage)) ==> AtMostOneRowPerKey(limitUsage)
      ensures response != Redirect("/premium") && (filename.None? || convertType.None?) ==>
        response == BadRequest
      ensures response != Redirect("/premium") && filename.Some? && convertType.Some? ==>
        match ParseKind(convertType.value)
        case None => response == NoOutputPath(Join(UPLOAD_FOLDER, filename.value))
        case Some(kind) =>
          response == SendFile(Join(UPLOAD_FOLDER, filename.value), OutputPath(filename.value, kind), ForcesRgb(kind))
    {
      var admitted := CheckLimit(ip, today);
      if !admitted {
        return Redirect("/premium");
      }
      if filename.None? || convertType.None? {
        return BadRequest;
      }
      var upload := Join(UPLOAD_FOLDER, filename.value);
      match ParseKind(convertType.value)
      case None =>
        response := NoOutputPath(upload);
      case Some(kind) =>
        response := SendFile(upload, OutputPath(filename.value, kind), ForcesRgb(kind));
    }
  }

  /** From a day on which `ip` has no row, a session without premium is
      admitted three times and refused the fourth time; only the count of
      (ip, today) changes, and it ends at the limit. */
  method FourthRequestDenied(app: App, ip: string, today: int)
    returns (first: bool, second: bool, third: bool, fourth: bool)
    requires !IsPremium(app.sessionPaymentId, app.premiumUsers, today)
    requires (ip, today) !in Tally(app.limitUsage)
    modifies app
    ensures first && second && third && !fourth
    ensures Tally(app.limitUsage) == old(Tally(app.limitUsage))[(ip, today) := DAILY_LIMIT]
  {
    ghost var key := (ip, today);
    ghost var before := Tally(app.limitUsage);
    first := app.CheckLimit(Some(ip), today);
    ghost var t1 := Tally(app.limitUsage);
    assert t1 == before[key := 1];
    assert key in t1 && t1[key] == 1;
    second := app.CheckLimit(Some(ip), today);
    ghost var t2 := Tally(app.limitUsage);
    assert t2 == t1[key := 2];
    assert key in t2 && t2[key] == 2;
    third := app.CheckLimit(Some(ip), today);
    ghost var t3 := Tally(app.limitUsage);
    assert t3 == t2[key := 3];
    assert key in t3 && t3[key] == 3;
    assert t3 == before[key := 3];
    fourth := app.CheckLimit(Some(ip), today);
  }

  /** On a fresh database, one address is admitted three times on a day,
      refused the fourth time, and admitted again the next day, when a new
      row starts its count. */
  method QuotaResetsNextDay(ip: string, today: int) returns (sameDay: seq<bool>, nextDay: bool)
    ensures sameDay == [true, true, true, false]
    ensures nextDay
  {
    var app := new App([], []);
    var a1 := app.CheckLimit(Some(ip), today);
    var a2 := app.CheckLimit(Some(ip), today);
    var a3 := app.CheckLimit(Some(ip), today);
    var a4 := app.CheckLimit(Some(ip), today);
    sameDay := [a1, a2, a3, a4];
    nextDay := app.CheckLimit(Some(ip), today + 1);
  }

  /** A request without a client address is never counted: on a fresh
      database every one of them is admitted, the fourth included, and each
      leaves a row that no later query selects. */
  method MissingAddressNeverDenied(today: int) returns (sameDay: seq<bool>, rows: nat)
    ensures sameDay == [true, true, true, true]
    ensures rows == 4
  {
    var app := new App([], []);
    var a1 := app.CheckLimit(None, today);
    var a2 := app.CheckLimit(None, today);
    var a3 := app.CheckLimit(None, today);
    var a4 := app.CheckLimit(None, today);
    sameDay := [a1, a2, a3, a4];
    rows := |app.limitUsage|;
  }

  /** After a verified payment with a non-empty identifier, the session is
      admitted on any day up to the expiry, whatever the counters say, and
      no count changes. */
  method PremiumBypassesQuota(app: App, paymentId: string, ip: Option<string>, today: int, day: int)
    returns (response: Response, admitted: bool)
    requires paymentId != ""
    requires day <= today + ENTITLEMENT_DAYS
    modifies app
    ensures response == Redirect("/")
    ensures admitted
    ensures app.limitUsage == old(app.limitUsage)
  {
    response := app.PaymentSuccess(true, paymentId, today);
    admitted := app.CheckLimit(ip, day);
  }
}
