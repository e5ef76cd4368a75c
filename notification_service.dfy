/**
 * `NotificationService`: marking a notification read, creating and sending
 * one, the three canned alerts, and the retry of failed sends.
 *
 * The Kakao adapter's answer is a parameter: the result code it returns,
 * or the message of the exception it throws. `isKakaoNotificationEnabled`
 * always answers true, so every notification goes to the adapter.
 */
module NotificationService {
  import opened Common
  import opened Notifications

  datatype NotificationError = NotificationNotFound | NotOwner | UserNotFound

  /** What `kaKaoNotificationAdapter.sendNotification` did. */
  datatype SendOutcome = Delivered(resultCode: Option<string>) | Refused(message: Option<string>)

  /**
   * `sendKakaoNotificationAsync`: a delivered notification records the
   * result code and is SENT; a refused one is FAILED with one more retry.
   * Either way it is no longer pending, and who it is for, what it says and
   * whether it was read stay.
   */
  function Attempted(row: NotificationRow, outcome: SendOutcome, now: int): (r: NotificationRow)
    ensures r.status == Some(SENT) || r.status == Some(FAILED)
    ensures outcome.Delivered? ==> (r.status == Some(SENT) && r.kakaoResultCode == outcome.resultCode
                                    && r.sentAt == Some(now) && r.retries == row.retries)
    ensures outcome.Refused? ==> (r.status == Some(FAILED) && r.errorMessage == outcome.message
                                  && r.retries == row.retries + 1 && r.kakaoResultCode == row.kakaoResultCode)
    ensures r.id == row.id && r.userId == row.userId && r.notificationType == row.notificationType
    ensures r.title == row.title && r.body == row.body && r.isRead == row.isRead
  {
    match outcome
    case Delivered(code) => Sent(WithKakaoResult(row, code), now)
    case Refused(message) => Failed(row, message)
  }

  /** The send attempt on the entity itself. */
  method SendKakao(n: Notification, outcome: SendOutcome, now: int)
    modifies n
    ensures n.Row() == Attempted(old(n.Row()), outcome, now)
  {
    match outcome {
      case Delivered(code) =>
        n.SetKakaoResult(code);
        n.MarkAsSent(now);
      case Refused(message) =>
        n.MarkAsFailed(message);
    }
  }

  /** `findRetryableNotifications(FAILED)`: failed rows with fewer than three retries. */
  predicate Retryable(row: NotificationRow)
  {
    row.status == Some(FAILED) && row.retries < 3
  }

  /** The repository's query selects exactly the rows the entity would allow to retry. */
  lemma RetryableIsCanRetry(row: NotificationRow)
    requires row.status.Some?
    ensures Retryable(row) <==> CanRetry(row)
  {
  }

  /** The table after a retry pass: every retryable row attempted once, every other row as it was. */
  function Retried(notifications: map<int, NotificationRow>, outcome: int -> SendOutcome, now: int): (r: map<int, NotificationRow>)
    ensures r.Keys == notifications.Keys
  {
    map id | id in notifications :: if Retryable(notifications[id]) then Attempted(notifications[id], outcome(id), now) else notifications[id]
  }

  /**
   * A retry pass touches only retryable rows; it leaves none of them
   * pending, and a row can be retried again only if this attempt failed
   * and it still has fewer than three failures.
   */
  lemma RetriedRows(notifications: map<int, NotificationRow>, outcome: int -> SendOutcome, now: int, id: int)
    requires id in notifications
    ensures var before, after := notifications[id], Retried(notifications, outcome, now)[id];
      && (!Retryable(before) ==> after == before)
      && (Retryable(before) ==> after.status != Some(PENDING) && after.retries <= 3)
      && (Retryable(before) && Retryable(after) ==> outcome(id).Refused? && before.retries < 2)
  {
  }

  /** "%s 기프티콘이 %d일 후 만료됩니다.": a null name prints as "null". */
  function GifticonExpireBody(gifticonName: Option<string>, daysLeft: int): string
  {
    gifticonName.GetOr("null") + " 기프티콘이 " + IntToString(daysLeft) + "일 후 만료됩니다."
  }

  const GIFTICON_MIDDLE: string := " 기프티콘이 "
  const GIFTICON_TAIL: string := "일 후 만료됩니다."

  /** The gifticon body reads back as the name and the number of days. */
  lemma GifticonExpireBodyReadsBack(gifticonName: string, daysLeft: int)
    requires IsInt32(daysLeft)
    ensures var body := GifticonExpireBody(Some(gifticonName), daysLeft);
      var head := |gifticonName| + |GIFTICON_MIDDLE|;
      && |body| >= head + |GIFTICON_TAIL|
      && body[..|gifticonName|] == gifticonName
      && body[|gifticonName|..head] == GIFTICON_MIDDLE
      && body[|body| - |GIFTICON_TAIL|..] == GIFTICON_TAIL
      && ParseInt(body[head..|body| - |GIFTICON_TAIL|]) == Some(daysLeft)
  {
    var body := GifticonExpireBody(Some(gifticonName), daysLeft);
    var digits := IntToString(daysLeft);
    assert body == gifticonName + GIFTICON_MIDDLE + digits + GIFTICON_TAIL;
    var head := |gifticonName| + |GIFTICON_MIDDLE|;
    assert body[head..|body| - |GIFTICON_TAIL|] == digits;
    ParseIntToString(daysLeft);
  }

  const BUDGET_ALERT_LEAD: string := "설정한 예산을 초과했습니다. "

  /** "설정한 예산을 초과했습니다. %s": a null detail prints as "null". */
  function BudgetAlertBody(budgetInfo: Option<string>): (body: string)
    ensures BUDGET_ALERT_LEAD <= body
    ensures body[|BUDGET_ALERT_LEAD|..] == budgetInfo.GetOr("null")
  {
    BUDGET_ALERT_LEAD + budgetInfo.GetOr("null")
  }

  /** The loop of `retryFailedNotifications` over rows whose ids lie below `bound`, in id order. */
  method RetryAll(rows: map<int, NotificationRow>, bound: int, outcome: int -> SendOutcome, now: int)
    returns (after: map<int, NotificationRow>)
    requires bound >= 1 && forall id :: id in rows ==> 1 <= id < bound
    ensures after == Retried(rows, outcome, now)
  {
    after := rows;
    for id := 1 to bound
      invariant after.Keys == rows.Keys
      invariant forall k :: k in rows ==>
        after[k] == if k < id && Retryable(rows[k]) then Attempted(rows[k], outcome(k), now) else rows[k]
    {
      if id in after && Retryable(after[id]) {
        var n := new Notification.Load(after[id]);
        SendKakao(n, outcome(id), now);
        after := after[id := n.Row()];
      }
    }
  }

  class NotificationStore {
    /** `notifications`, by id. */
    var notifications: map<int, NotificationRow>
    /** The ids in `users`. */
    var users: set<int>
    /** The identity the next insert receives. */
    var nextId: int

    predicate Valid()
      reads this
    {
      && nextId >= 1
      && forall id :: id in notifications ==> notifications[id].id == id && 1 <= id < nextId && Storable(notifications[id])
    }

    constructor (users: set<int>)
      ensures Valid() && notifications == map[] && this.users == users
    {
      notifications := map[];
      this.users := users;
      nextId := 1;
    }

    /**
     * `markNotificationAsRead`: an unknown notification and another user's
     * notification are refused and nothing changes; otherwise the
     * notification is read (a no-op when it already was).
     */
    method MarkNotificationAsRead(notificationId: int, userId: int) returns (r: Result<(), NotificationError>)
      requires Valid()
      modifies this
      ensures Valid() && users == old(users) && nextId == old(nextId)
      ensures notificationId !in old(notifications) ==> r == Err(NotificationNotFound) && notifications == old(notifications)
      ensures notificationId in old(notifications) && old(notifications)[notificationId].userId != userId ==>
        r == Err(NotOwner) && notifications == old(notifications)
      ensures notificationId in old(notifications) && old(notifications)[notificationId].userId == userId ==>
        r == Ok(()) && notifications == old(notifications)[notificationId := Read(old(notifications)[notificationId])]
    {
      if notificationId !in notifications {
        return Err(NotificationNotFound);
      }
      var n := new Notification.Load(notifications[notificationId]);
      if n.userId != userId {
        return Err(NotOwner);
      }
      if n.isRead {
        ReadIdempotent(n.Row());
        return Ok(());
      }
      n.MarkAsRead();
      notifications := notifications[notificationId := n.Row()];
      return Ok(());
    }

    /**
     * `createAndSendNotification`: an unknown user is refused before
     * anything is saved; otherwise a new pending notification is saved under
     * the next id and then sent, and the saved row is the sent one.
     */
    method CreateAndSendNotification(
      userId: int, notificationType: NotificationType, title: string, body: string, now: int, outcome: SendOutcome)
      returns (r: Result<NotificationRow, NotificationError>)
      requires Valid()
      modifies this
      ensures Valid() && users == old(users)
      ensures userId !in users ==> r == Err(UserNotFound) && notifications == old(notifications) && nextId == old(nextId)
      ensures userId in users ==>
        && r == Ok(Attempted(Built(old(nextId), userId, notificationType, title, body, now), outcome, now))
        && notifications == old(notifications)[old(nextId) := r.value]
        && nextId == old(nextId) + 1
    {
      if userId !in users {
        return Err(UserNotFound);
      }
      var n := new Notification.Load(Built(nextId, userId, notificationType, title, body, now));
      notifications := notifications[nextId := n.Row()];
      nextId := nextId + 1;
      SendKakao(n, outcome, now);
      notifications := notifications[n.id := n.Row()];
      return Ok(n.Row());
    }

    /** `sendTestNotification`: a benefit-event notification with the fixed test title and text. */
    method SendTestNotification(userId: int, now: int, outcome: SendOutcome) returns (r: Result<NotificationRow, NotificationError>)
      requires Valid()
      modifies this
      ensures Valid() && users == old(users)
      ensures userId !in users ==> r == Err(UserNotFound) && notifications == old(notifications)
      ensures userId in users ==>
        r == Ok(Attempted(Built(old(nextId), userId, BENEFIT_EVENT, "테스트 알림", "관리자가 발송한 테스트 알림입니다.", now), outcome, now))
        && notifications == old(notifications)[old(nextId) := r.value]
    {
      r := CreateAndSendNotification(userId, BENEFIT_EVENT, "테스트 알림", "관리자가 발송한 테스트 알림입니다.", now, outcome);
    }

    /** `sendBudgetAlert`. */
    method SendBudgetAlert(userId: int, budgetInfo: Option<string>, now: int, outcome: SendOutcome)
      returns (r: Result<(), NotificationError>)
      requires Valid()
      modifies this
      ensures Valid() && users == old(users)
      ensures userId !in users ==> r == Err(UserNotFound) && notifications == old(notifications)
      ensures userId in users ==> r == Ok(()) && notifications == old(notifications)[old(nextId) :=
        Attempted(Built(old(nextId), userId, BUDGET_ALERT, "예산 초과 알림", BudgetAlertBody(budgetInfo), now), outcome, now)]
    {
      var created := CreateAndSendNotification(userId, BUDGET_ALERT, "예산 초과 알림", BudgetAlertBody(budgetInfo), now, outcome);
      r := if created.Ok? then Ok(()) else Err(created.error);
    }

    /** `sendGifticonExpireAlert`. */
    method SendGifticonExpireAlert(userId: int, gifticonName: Option<string>, daysLeft: int, now: int, outcome: SendOutcome)
      returns (r: Result<(), NotificationError>)
      requires Valid()
      modifies this
      ensures Valid() && users == old(users)
      ensures userId !in users ==> r == Err(UserNotFound) && notifications == old(notifications)
      ensures userId in users ==> r == Ok(()) && notifications == old(notifications)[old(nextId) :=
        Attempted(Built(old(nextId), userId, GIFTICON_EXPIRE, "기프티콘 만료 알림", GifticonExpireBody(gifticonName, daysLeft), now), outcome, now)]
    {
      var created := CreateAndSendNotification(
        userId, GIFTICON_EXPIRE, "기프티콘 만료 알림", GifticonExpireBody(gifticonName, daysLeft), now, outcome);
      r := if created.Ok? then Ok(()) else Err(created.error);
    }

    /**
     * `retryFailedNotifications`: every retryable row is sent again, once;
     * the adapter's answer for a row is `outcome(id)`. Each row's attempt
     * depends on that row alone, so visiting them in id order gives the
     * table that selecting them first and then sending would.
     */
    method RetryFailedNotifications(outcome: int -> SendOutcome, now: int)
      requires Valid()
      modifies this
      ensures Valid() && users == old(users) && nextId == old(nextId)
      ensures notifications == Retried(old(notifications), outcome, now)
    {
      notifications := RetryAll(notifications, nextId, outcome, now);
    }
  }
}
