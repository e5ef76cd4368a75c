/**
 * The notification domain: the status and type enums with their code
 * tables, the `notifications` row, and the `Notification` entity whose
 * business methods update it in place. Instants are handed in by the clock.
 */
module Notifications {
  import opened Common

  // ---------------------------------------------------------------------------
  // Code tables
  // ---------------------------------------------------------------------------

  /** The first of `values` whose code is `code`, scanning in declaration order as `fromCode` does. */
  function FindByCode<T>(values: seq<T>, codeOf: T -> string, code: string): (r: Option<T>)
    ensures r.Some? ==> r.value in values && codeOf(r.value) == code
    ensures r.None? <==> forall v :: v in values ==> codeOf(v) != code
  {
    if values == [] then None
    else if codeOf(values[0]) == code then Some(values[0])
    else FindByCode(values[1..], codeOf, code)
  }

  datatype NotificationStatus = PENDING | SENT | FAILED
  {
    function Code(): string
    {
      match this
      case PENDING => "PENDING"
      case SENT => "SENT"
      case FAILED => "FAILED"
    }

    function DisplayName(): string
    {
      match this
      case PENDING => "발송 대기"
      case SENT => "발송 완료"
      case FAILED => "발송 실패"
    }

    /** `isRetryable`: only a failed send may be tried again. */
    predicate IsRetryable()
    {
      this == FAILED
    }
  }

  const STATUS_VALUES: seq<NotificationStatus> := [PENDING, SENT, FAILED]

  /** `NotificationStatus.fromCode`; `None` is the `IllegalArgumentException` of an unknown code. */
  function StatusFromCode(code: string): (r: Option<NotificationStatus>)
    ensures r.Some? ==> r.value.Code() == code
  {
    FindByCode(STATUS_VALUES, (s: NotificationStatus) => s.Code(), code)
  }

  /** Every status is found by its own code, which is its constant's name; no other code is accepted. */
  lemma StatusCodes(s: NotificationStatus, code: string)
    ensures StatusFromCode(s.Code()) == Some(s)
    ensures StatusFromCode(code).Some? <==> code in {"PENDING", "SENT", "FAILED"}
  {
    assert s in STATUS_VALUES;
  }

  datatype NotificationType = BUDGET_ALERT | GIFTICON_EXPIRE | BENEFIT_EVENT
  {
    /** The code table as written: the gifticon alert's code is spelt "GIFICON_EXPIRE". */
    function Code(): string
    {
      match this
      case BUDGET_ALERT => "BUDGET_ALERT"
      case GIFTICON_EXPIRE => "GIFICON_EXPIRE"
      case BENEFIT_EVENT => "BENEFIT_EVENT"
    }

    function DisplayName(): string
    {
      match this
      case BUDGET_ALERT => "예산 초과 알림"
      case GIFTICON_EXPIRE => "기프티콘 만료 알림"
      case BENEFIT_EVENT => "혜택/이벤트 알림"
    }
  }

  const TYPE_VALUES: seq<NotificationType> := [BUDGET_ALERT, GIFTICON_EXPIRE, BENEFIT_EVENT]

  /** `NotificationType.fromCode`; `None` is the `IllegalArgumentException` of an unknown code. */
  function TypeFromCode(code: string): (r: Option<NotificationType>)
    ensures r.Some? ==> r.value.Code() == code
  {
    FindByCode(TYPE_VALUES, (t: NotificationType) => t.Code(), code)
  }

  /**
   * Every type is found by its code and no two types share one; the
   * gifticon alert's own constant name is not a code, so looking it up
   * fails.
   */
  lemma TypeCodes(t: NotificationType, u: NotificationType)
    ensures TypeFromCode(t.Code()) == Some(t)
    ensures t.Code() == u.Code() ==> t == u
    ensures GIFTICON_EXPIRE.Code() == "GIFICON_EXPIRE"
    ensures TypeFromCode("GIFTICON_EXPIRE").None?
  {
    assert t in TYPE_VALUES;
  }

  // ---------------------------------------------------------------------------
  // The notifications row and its transitions
  // ---------------------------------------------------------------------------

  /** A `notifications` row. `status` is `None` when it was left null. */
  datatype NotificationRow = NotificationRow(
    id: int,
    userId: int,
    notificationType: NotificationType,
    title: string,
    body: string,
    sentAt: Option<int>,
    status: Option<NotificationStatus>,
    retries: int,
    errorMessage: Option<string>,
    kakaoResultCode: Option<string>,
    createdAt: int,
    updatedAt: int,
    isRead: bool)

  /** The non-null columns the row must fill before it can be inserted. */
  predicate Storable(row: NotificationRow)
  {
    row.status.Some?
  }

  /**
   * `Notification.builder()...build()` as written, then saved at `now`:
   * `@Builder.Default` gives 0 retries and unread, but the `PENDING`
   * initializer of `status` carries no `@Builder.Default`, so the builder
   * leaves the status null.
   */
  function BuiltAsWritten(id: int, userId: int, notificationType: NotificationType, title: string, body: string, now: int)
    : (r: NotificationRow)
    ensures r.status.None? && !Storable(r)
    ensures r.retries == 0 && !r.isRead
  {
    NotificationRow(id, userId, notificationType, title, body, None, None, 0, None, None, now, now, false)
  }

  /** The new notification as evidently intended: pending, never tried, unread. */
  function Built(id: int, userId: int, notificationType: NotificationType, title: string, body: string, now: int)
    : (r: NotificationRow)
    ensures r.status == Some(PENDING) && Storable(r)
    ensures r.retries == 0 && !r.isRead && r.sentAt.None? && r.errorMessage.None? && r.kakaoResultCode.None?
    ensures r.id == id && r.userId == userId && r.notificationType == notificationType && r.title == title && r.body == body
  {
    NotificationRow(id, userId, notificationType, title, body, None, Some(PENDING), 0, None, None, now, now, false)
  }

  /** The two builders differ in the status alone. */
  lemma BuilderDropsPendingDefault(id: int, userId: int, notificationType: NotificationType, title: string, body: string, now: int)
    ensures BuiltAsWritten(id, userId, notificationType, title, body, now).(status := Some(PENDING))
         == Built(id, userId, notificationType, title, body, now)
  {
  }

  /** `markAsRead`: the notification is read; status, retries and everything else stay. */
  function Read(row: NotificationRow): (r: NotificationRow)
    ensures r.isRead && r.(isRead := row.isRead) == row
  {
    row.(isRead := true)
  }

  /** `markAsSent`: the status is SENT and `sentAt` the instant; retries stay. */
  function Sent(row: NotificationRow, now: int): (r: NotificationRow)
    ensures r.status == Some(SENT) && r.sentAt == Some(now) && r.retries == row.retries
    ensures r.(status := row.status, sentAt := row.sentAt) == row
  {
    row.(status := Some(SENT), sentAt := Some(now))
  }

  /** `markAsFailed`: the status is FAILED, the message is kept and the retries go up by one. */
  function Failed(row: NotificationRow, message: Option<string>): (r: NotificationRow)
    ensures r.status == Some(FAILED) && r.errorMessage == message && r.retries == row.retries + 1
    ensures r.(status := row.status, errorMessage := row.errorMessage, retries := row.retries) == row
  {
    row.(status := Some(FAILED), errorMessage := message, retries := row.retries + 1)
  }

  /** `setKakaoResult`. */
  function WithKakaoResult(row: NotificationRow, resultCode: Option<string>): (r: NotificationRow)
    ensures r.kakaoResultCode == resultCode && r.(kakaoResultCode := row.kakaoResultCode) == row
  {
    row.(kakaoResultCode := resultCode)
  }

  /** `canRetry`; a null status would throw, so one is required. */
  predicate CanRetry(row: NotificationRow)
    requires row.status.Some?
  {
    row.retries < 3 && row.status.value.IsRetryable()
  }

  /** Marking twice is marking once, and marking an unread row is the only way to change it. */
  lemma ReadIdempotent(row: NotificationRow)
    ensures Read(Read(row)) == Read(row)
    ensures Read(row) == row <==> row.isRead
  {
  }

  /**
   * A failed row may be retried exactly while fewer than three failures
   * are counted: from a fresh row, two failures leave a retry and the
   * third exhausts them, whatever the messages.
   */
  lemma {:induction false} FailuresExhaustRetries(row: NotificationRow, m1: Option<string>, m2: Option<string>, m3: Option<string>)
    requires row.retries == 0
    ensures CanRetry(Failed(row, m1)) && CanRetry(Failed(Failed(row, m1), m2))
    ensures !CanRetry(Failed(Failed(Failed(row, m1), m2), m3))
  {
    var once := Failed(row, m1);
    var twice := Failed(once, m2);
    var thrice := Failed(twice, m3);
    assert once.retries == 1 && twice.retries == 2 && thrice.retries == 3;
  }

  /** Sending never un-reads, and a sent row is not retried. */
  lemma SentIsNotRetried(row: NotificationRow, now: int)
    ensures !CanRetry(Sent(row, now))
    ensures Sent(row, now).isRead == row.isRead
  {
  }

  // ---------------------------------------------------------------------------
  // The entity
  // ---------------------------------------------------------------------------

  class Notification {
    var id: int
    var userId: int
    var notificationType: NotificationType
    var title: string
    var body: string
    var sentAt: Option<int>
    var status: Option<NotificationStatus>
    var retries: int
    var errorMessage: Option<string>
    var kakaoResultCode: Option<string>
    var createdAt: int
    var updatedAt: int
    var isRead: bool

    function Row(): NotificationRow
      reads this
    {
      NotificationRow(id, userId, notificationType, title, body, sentAt, status, retries, errorMessage,
                      kakaoResultCode, createdAt, updatedAt, isRead)
    }

    /** The entity the repository hands out for a stored row. */
    constructor Load(row: NotificationRow)
      ensures Row() == row
    {
      id, userId, notificationType, title, body := row.id, row.userId, row.notificationType, row.title, row.body;
      sentAt, status, retries, errorMessage := row.sentAt, row.status, row.retries, row.errorMessage;
      kakaoResultCode, createdAt, updatedAt, isRead := row.kakaoResultCode, row.createdAt, row.updatedAt, row.isRead;
    }

    method MarkAsRead()
      modifies this
      ensures Row() == Read(old(Row()))
    {
      isRead := true;
    }

    method MarkAsSent(now: int)
      modifies this
      ensures Row() == Sent(old(Row()), now)
    {
      status := Some(SENT);
      sentAt := Some(now);
    }

    method MarkAsFailed(message: Option<string>)
      modifies this
      ensures Row() == Failed(old(Row()), message)
    {
      status := Some(FAILED);
      errorMessage := message;
      retries := retries + 1;
    }

    method SetKakaoResult(resultCode: Option<string>)
      modifies this
      ensures Row() == WithKakaoResult(old(Row()), resultCode)
    {
      kakaoResultCode := resultCode;
    }
  }
}
