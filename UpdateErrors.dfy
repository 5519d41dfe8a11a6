/**
 * Update error handling (packages/electron/src/main/utils/updateErrorHandler.ts):
 * a first-match classifier from an error's message and code to an error type,
 * the per-type user message, recovery actions and retryability, the record
 * `handleError` assembles, and the bounded retry loop `withRetry`.
 *
 * Logging, `Date.now` (a parameter here) and the real `setTimeout` delays are not
 * modelled; `withRetry` reports the delays it would wait.
 */
module UpdateErrors {
  import opened Wrappers
  import opened Strings

  datatype ErrorType =
    | NetworkError | DownloadError | SignatureError | PermissionError
    | DiskSpaceError | InstallError | UnknownError

  datatype ActionType = Retry | ManualDownload | ContactSupport | CheckPermission | RestartApp | FreeSpace

  datatype RecoveryAction = RecoveryAction(kind: ActionType, title: string, description: string, url: Option<string>)

  /** `error.code || error.errno`: a string code, or a numeric errno. */
  datatype Code = TextCode(text: string) | NumericCode(number: int)

  /**
   * A thrown value: its `message`, `code` and `errno` properties, whether it is an
   * `Error` instance, and `String(value)`.
   */
  datatype Thrown = Thrown(message: Option<string>, code: Option<string>, errno: Option<int>, isError: bool, text: string)

  /** `UpdateError`, without the stack and the original error object. */
  datatype UpdateError = UpdateError(
    kind: ErrorType, code: Option<Code>, message: string, userMessage: string,
    context: Option<string>, recoveryActions: seq<RecoveryAction>, timestamp: int, retryable: bool)

  const MaxRetryCount: int := 3
  const RetryDelays: seq<int> := [1000, 3000, 5000]
  const ReleasesUrl: string := "https://github.com/your-repo/releases/latest"

  // ---------------------------------------------------------------------------
  // Classification
  // ---------------------------------------------------------------------------

  function ErrorCode(e: Thrown): Option<Code> {
    if e.code.Some? && e.code.value != "" then Some(TextCode(e.code.value))
    else if e.errno.Some? && e.errno.value != 0 then Some(NumericCode(e.errno.value))
    else None
  }

  /** `(error.message || '').toLowerCase()`. */
  function LoweredMessage(e: Thrown): string {
    ToLower(if e.message.Some? then e.message.value else "")
  }

  /** The classification rules as a table: keywords searched in the lower-cased message, and exact codes. */
  function Keywords(t: ErrorType): seq<string> {
    match t
    case NetworkError => ["network", "timeout", "connection", "enotfound", "econnrefused", "econnreset"]
    case DownloadError => ["download", "fetch", "http", "404", "403", "500"]
    case SignatureError => ["signature", "verify", "certificate", "untrusted", "invalid signature"]
    case PermissionError => ["permission", "access denied", "eacces", "eperm"]
    case DiskSpaceError => ["no space", "disk full", "enospc"]
    case InstallError => ["install", "extract", "unzip"]
    case UnknownError => []
  }

  function Codes(t: ErrorType): seq<string> {
    match t
    case NetworkError => ["ENOTFOUND", "ECONNREFUSED", "ETIMEDOUT"]
    case PermissionError => ["EACCES", "EPERM"]
    case DiskSpaceError => ["ENOSPC"]
    case _ => []
  }

  /** The rule for `t` fires on `e`. */
  predicate Matches(e: Thrown, t: ErrorType) {
    (exists k | k in Keywords(t) :: Contains(LoweredMessage(e), k)) ||
    (ErrorCode(e).Some? && ErrorCode(e).value.TextCode? && ErrorCode(e).value.text in Codes(t))
  }

  /** The order in which the rules are tried. */
  const Priority: seq<ErrorType> :=
    [NetworkError, DownloadError, SignatureError, PermissionError, DiskSpaceError, InstallError]

  function Rank(t: ErrorType): (r: nat)
    ensures r <= |Priority| && (r < |Priority| ==> Priority[r] == t)
    ensures t == UnknownError <==> r == |Priority|
  {
    match t
    case NetworkError => 0
    case DownloadError => 1
    case SignatureError => 2
    case PermissionError => 3
    case DiskSpaceError => 4
    case InstallError => 5
    case UnknownError => 6
  }

  /** Each rule's message tests as the source spells them out: a chain of `includes`. */
  predicate MessageRule(m: string, t: ErrorType) {
    match t
    case NetworkError =>
      Contains(m, "network") || Contains(m, "timeout") || Contains(m, "connection") ||
      Contains(m, "enotfound") || Contains(m, "econnrefused") || Contains(m, "econnreset")
    case DownloadError =>
      Contains(m, "download") || Contains(m, "fetch") || Contains(m, "http") ||
      Contains(m, "404") || Contains(m, "403") || Contains(m, "500")
    case SignatureError =>
      Contains(m, "signature") || Contains(m, "verify") || Contains(m, "certificate") ||
      Contains(m, "untrusted") || Contains(m, "invalid signature")
    case PermissionError =>
      Contains(m, "permission") || Contains(m, "access denied") || Contains(m, "eacces") ||
      Contains(m, "eperm")
    case DiskSpaceError =>
      Contains(m, "no space") || Contains(m, "disk full") || Contains(m, "enospc")
    case InstallError =>
      Contains(m, "install") || Contains(m, "extract") || Contains(m, "unzip")
    case UnknownError => false
  }

  /** Each rule's code comparisons (`code === '…'`). */
  predicate CodeRule(code: Option<Code>, t: ErrorType) {
    match t
    case NetworkError =>
      code == Some(TextCode("ENOTFOUND")) || code == Some(TextCode("ECONNREFUSED")) ||
      code == Some(TextCode("ETIMEDOUT"))
    case PermissionError => code == Some(TextCode("EACCES")) || code == Some(TextCode("EPERM"))
    case DiskSpaceError => code == Some(TextCode("ENOSPC"))
    case _ => false
  }

  predicate Rule(e: Thrown, t: ErrorType) {
    MessageRule(LoweredMessage(e), t) || CodeRule(ErrorCode(e), t)
  }

  /** The rules tried in order, `fires` telling which rule fires. */
  function FirstRule(fires: ErrorType -> bool): ErrorType {
    if fires(NetworkError) then NetworkError
    else if fires(DownloadError) then DownloadError
    else if fires(SignatureError) then SignatureError
    else if fires(PermissionError) then PermissionError
    else if fires(DiskSpaceError) then DiskSpaceError
    else if fires(InstallError) then InstallError
    else UnknownError
  }

  /** `identifyErrorType`. */
  function IdentifyErrorType(e: Thrown): ErrorType {
    FirstRule(t => Rule(e, t))
  }

  /** The chain answers the first rule in priority order that fires, and UNKNOWN_ERROR when none does. */
  lemma FirstRuleIsFirst(fires: ErrorType -> bool, t: ErrorType)
    ensures FirstRule(fires) == t <==>
      (t == UnknownError || fires(t)) && forall k :: 0 <= k < Rank(t) ==> !fires(Priority[k])
  {
    if FirstRule(fires) != t && (t == UnknownError || fires(t)) {
      var r := FirstRule(fires);
      assert Rank(r) < Rank(t);
      assert Priority[Rank(r)] == r;
    }
  }

  /** The message tests fire exactly when some keyword of the table occurs. */
  lemma MessageRuleIsTable(m: string, t: ErrorType)
    ensures MessageRule(m, t) <==> exists k | k in Keywords(t) :: Contains(m, k)
  {
    var ks := Keywords(t);
    if MessageRule(m, t) {
      // name each keyword by its index so that the matching one is found as a witness
      assert forall i | 0 <= i < |ks| :: ks[i] in ks;
      if |ks| == 3 {
        assert Contains(m, ks[0]) || Contains(m, ks[1]) || Contains(m, ks[2]);
      } else if |ks| == 4 {
        assert Contains(m, ks[0]) || Contains(m, ks[1]) || Contains(m, ks[2]) || Contains(m, ks[3]);
      } else if |ks| == 5 {
        assert Contains(m, ks[0]) || Contains(m, ks[1]) || Contains(m, ks[2]) || Contains(m, ks[3]) ||
          Contains(m, ks[4]);
      } else {
        assert Contains(m, ks[0]) || Contains(m, ks[1]) || Contains(m, ks[2]) || Contains(m, ks[3]) ||
          Contains(m, ks[4]) || Contains(m, ks[5]);
      }
    }
  }

  lemma CodeRuleIsTable(code: Option<Code>, t: ErrorType)
    ensures CodeRule(code, t) <==> code.Some? && code.value.TextCode? && code.value.text in Codes(t)
  {
  }

  /** Each spelled-out rule fires exactly when the table says it does. */
  lemma RuleIsTable(e: Thrown, t: ErrorType)
    ensures Rule(e, t) <==> Matches(e, t)
  {
    MessageRuleIsTable(LoweredMessage(e), t);
    CodeRuleIsTable(ErrorCode(e), t);
  }

  /**
   * The classifier is a first-match reading of the table, in both directions: it
   * answers `t` exactly when `t`'s rule fires (or `t` is UNKNOWN_ERROR) and no rule
   * earlier in the priority order does.
   */
  lemma IdentifyIsFirstMatch(e: Thrown, t: ErrorType)
    ensures IdentifyErrorType(e) == t <==>
      (t == UnknownError || Matches(e, t)) && forall k :: 0 <= k < Rank(t) ==> !Matches(e, Priority[k])
  {
    var fires := u => Rule(e, u);
    FirstRuleIsFirst(fires, t);
    forall u ensures fires(u) == Matches(e, u) {
      RuleIsTable(e, u);
    }
  }

  // ---------------------------------------------------------------------------
  // Per-type tables
  // ---------------------------------------------------------------------------

  /** `isRetryable`: false exactly for signature, permission and disk-space errors. */
  function IsRetryable(t: ErrorType): (r: bool)
    ensures !r <==> t in {SignatureError, PermissionError, DiskSpaceError}
  {
    match t
    case NetworkError => true
    case DownloadError => true
    case InstallError => true
    case SignatureError => false
    case PermissionError => false
    case DiskSpaceError => false
    case UnknownError => true
  }

  function UserMessage(t: ErrorType, e: Thrown): string {
    match t
    case NetworkError => "网络连接失败，请检查您的网络连接后重试。"
    case DownloadError => "下载更新包失败，可能是服务器暂时不可用。"
    case SignatureError => "更新包签名验证失败，为了您的安全，已停止安装。"
    case PermissionError => "权限不足，请以管理员身份运行应用程序。"
    case DiskSpaceError => "磁盘空间不足，请清理磁盘空间后重试。"
    case InstallError => "安装更新失败，请尝试手动下载安装。"
    case UnknownError =>
      "更新过程中发生未知错误：" + (if e.message.Some? && e.message.value != "" then e.message.value else "请稍后重试")
  }

  function Action(kind: ActionType, title: string, description: string): RecoveryAction {
    RecoveryAction(kind, title, description, if kind == ManualDownload then Some(ReleasesUrl) else None)
  }

  function Kinds(actions: seq<RecoveryAction>): (r: seq<ActionType>)
    ensures |r| == |actions| && forall i :: 0 <= i < |r| ==> r[i] == actions[i].kind
  {
    seq(|actions|, i requires 0 <= i < |actions| => actions[i].kind)
  }

  /** `generateRecoveryActions`. */
  function RecoveryActions(t: ErrorType): seq<RecoveryAction> {
    match t
    case NetworkError => [
      Action(Retry, "重试", "检查网络连接后重新尝试更新"),
      Action(ManualDownload, "手动下载", "从官网手动下载最新版本")]
    case DownloadError => [
      Action(Retry, "重试", "稍后重新尝试下载"),
      Action(ManualDownload, "手动下载", "从官网手动下载最新版本")]
    case SignatureError => [
      Action(ManualDownload, "手动下载", "从官方网站重新下载安装包"),
      Action(ContactSupport, "联系支持", "如果问题持续存在，请联系技术支持")]
    case PermissionError => [
      Action(CheckPermission, "检查权限", "以管理员身份重新运行应用程序"),
      Action(RestartApp, "重启应用", "关闭应用后以管理员身份重新启动")]
    case DiskSpaceError => [
      Action(FreeSpace, "清理空间", "清理磁盘空间后重试"),
      Action(ManualDownload, "手动下载", "手动下载到其他位置安装")]
    case InstallError => [
      Action(Retry, "重试", "重新尝试安装"),
      Action(RestartApp, "重启应用", "重启应用后重新尝试"),
      Action(ManualDownload, "手动下载", "手动下载安装包进行安装")]
    case UnknownError => [
      Action(Retry, "重试", "重新尝试更新"),
      Action(RestartApp, "重启应用", "重启应用后重新尝试"),
      Action(ManualDownload, "手动下载", "从官网手动下载最新版本"),
      Action(ContactSupport, "联系支持", "如果问题持续存在，请联系技术支持")]
  }

  /**
   * How many actions each type offers, which kinds, in order, and that only a manual
   * download carries a link, to the releases page.
   */
  lemma RecoveryActionsShape(t: ErrorType)
    ensures |RecoveryActions(t)| == match t
      case InstallError => 3
      case UnknownError => 4
      case _ => 2
    ensures Kinds(RecoveryActions(t)) == match t
      case NetworkError => [Retry, ManualDownload]
      case DownloadError => [Retry, ManualDownload]
      case SignatureError => [ManualDownload, ContactSupport]
      case PermissionError => [CheckPermission, RestartApp]
      case DiskSpaceError => [FreeSpace, ManualDownload]
      case InstallError => [Retry, RestartApp, ManualDownload]
      case UnknownError => [Retry, RestartApp, ManualDownload, ContactSupport]
    ensures forall a :: a in RecoveryActions(t) ==>
      (a.url.Some? <==> a.kind == ManualDownload) && (a.url.Some? ==> a.url.value == ReleasesUrl)
  {
  }

  /** A "retry" action is offered exactly for the retryable types. */
  lemma RetryOfferedIffRetryable(t: ErrorType)
    ensures (exists a :: a in RecoveryActions(t) && a.kind == Retry) <==> IsRetryable(t)
  {
    if IsRetryable(t) {
      assert RecoveryActions(t)[0].kind == Retry;
    }
  }

  // ---------------------------------------------------------------------------
  // handleError
  // ---------------------------------------------------------------------------

  /** `error.message || String(error)`. */
  function MessageOf(e: Thrown): string {
    if e.message.Some? && e.message.value != "" then e.message.value else e.text
  }

  /** `handleError`: the classified record, stamped with `now`. */
  function HandleError(e: Thrown, context: Option<string>, now: int): (r: UpdateError)
    ensures r.kind == IdentifyErrorType(e)
    ensures r.retryable <==> r.kind !in {SignatureError, PermissionError, DiskSpaceError}
    ensures r.message == (if e.message.Some? && e.message.value != "" then e.message.value else e.text)
    ensures r.code == ErrorCode(e) && r.context == context && r.timestamp == now
    ensures r.recoveryActions == RecoveryActions(r.kind) && r.userMessage == UserMessage(r.kind, e)
  {
    var kind := IdentifyErrorType(e);
    UpdateError(kind, ErrorCode(e), MessageOf(e), UserMessage(kind, e), context,
                RecoveryActions(kind), now, IsRetryable(kind))
  }

  /** The handler's unit test: "network timeout" is a retryable network error with two actions. */
  lemma NetworkTimeoutExample(now: int)
    ensures var r := HandleError(Thrown(Some("network timeout"), None, None, true, "Error: network timeout"), None, now);
      r.kind == NetworkError && r.message == "network timeout" &&
      r.userMessage == "网络连接失败，请检查您的网络连接后重试。" && r.retryable && |r.recoveryActions| == 2
  {
    var e := Thrown(Some("network timeout"), None, None, true, "Error: network timeout");
    assert LoweredMessage(e)[0..7] == "network";
    assert OccursAt(LoweredMessage(e), "network", 0);
  }

  // ---------------------------------------------------------------------------
  // The create*Error factories
  // ---------------------------------------------------------------------------

  /** `new Error(message)`, with `code` set when given and non-empty. */
  function NewError(message: string, code: Option<string>): Thrown {
    Thrown(Some(message), if code.Some? && code.value != "" then code else None, None, true,
           if message == "" then "Error" else "Error: " + message)
  }

  function TypeName(t: ErrorType): string {
    match t
    case NetworkError => "NETWORK_ERROR"
    case DownloadError => "DOWNLOAD_ERROR"
    case SignatureError => "SIGNATURE_ERROR"
    case PermissionError => "PERMISSION_ERROR"
    case DiskSpaceError => "DISK_SPACE_ERROR"
    case InstallError => "INSTALL_ERROR"
    case UnknownError => "UNKNOWN_ERROR"
  }

  /** The factories as written: the type name only becomes the context; the type comes from the message. */
  function CreateErrorAsWritten(kind: ErrorType, message: string, code: Option<string>, now: int): (r: UpdateError)
    ensures r.kind == IdentifyErrorType(NewError(message, code))
    ensures r.context == Some(TypeName(kind)) && r.timestamp == now
  {
    HandleError(NewError(message, code), Some(TypeName(kind)), now)
  }

  /** The factories as evidently meant: the error has the type the factory names. */
  function CreateError(kind: ErrorType, message: string, code: Option<string>, now: int): (r: UpdateError)
    ensures r.kind == kind && r.retryable == IsRetryable(kind) && r.recoveryActions == RecoveryActions(kind)
    ensures r.message == message || (message == "" && r.message == "Error")
    ensures r.context == Some(TypeName(kind)) && r.timestamp == now
  {
    var e := NewError(message, code);
    UpdateError(kind, ErrorCode(e), MessageOf(e), UserMessage(kind, e), Some(TypeName(kind)),
                RecoveryActions(kind), now, IsRetryable(kind))
  }

  /**
   * `createInstallError("install timeout")` yields a NETWORK_ERROR, with the network
   * recovery actions, because the network rule is tried first.
   */
  lemma InstallFactoryMisclassifies(now: int)
    ensures CreateErrorAsWritten(InstallError, "install timeout", None, now).kind == NetworkError
    ensures CreateError(InstallError, "install timeout", None, now).kind == InstallError
  {
    var e := NewError("install timeout", None);
    assert LoweredMessage(e)[8..15] == "timeout";
    assert OccursAt(LoweredMessage(e), "timeout", 8);
  }

  // ---------------------------------------------------------------------------
  // withRetry
  // ---------------------------------------------------------------------------

  /** The outcome of one call of the operation. */
  datatype Attempt<T> = Succeeds(value: T) | Fails(error: Thrown)

  /** `error instanceof Error ? error : new Error(String(error))`. */
  function AsError(e: Thrown): Thrown {
    if e.isError then e else NewError(e.text, None)
  }

  /** Whether the loop stops after attempt `a`: on success, or on a failure `handleError` calls non-retryable. */
  predicate StopsAfter<T>(a: Attempt<T>) {
    a.Succeeds? || !IsRetryable(IdentifyErrorType(AsError(a.error)))
  }

  /** The attempt the loop stops at: the first that stops it, or the last one allowed. */
  function StopIndex<T>(operation: nat -> Attempt<T>, maxRetries: nat, from: nat): (r: nat)
    requires from <= maxRetries
    ensures from <= r <= maxRetries
    ensures r < maxRetries ==> StopsAfter(operation(r))
    ensures forall i :: from <= i < r ==> !StopsAfter(operation(i))
    decreases maxRetries - from
  {
    if from == maxRetries || StopsAfter(operation(from)) then from
    else StopIndex(operation, maxRetries, from + 1)
  }

  /** The delay before attempt `attempt > 0`: `RETRY_DELAYS[min(attempt - 1, 2)]`. */
  function DelayBefore(attempt: nat): int
    requires attempt > 0
  {
    RetryDelays[if attempt - 1 < |RetryDelays| - 1 then attempt - 1 else |RetryDelays| - 1]
  }

  /** What `withRetry` resolves to: the value, or the error it throws (`null` when no attempt runs). */
  function RetryResult<T>(operation: nat -> Attempt<T>, maxRetries: int): Result<T, Option<Thrown>> {
    if maxRetries < 0 then Err(None)
    else match operation(StopIndex(operation, maxRetries, 0))
      case Succeeds(v) => Ok(v)
      case Fails(e) => Err(Some(AsError(e)))
  }

  function RetryCalls<T>(operation: nat -> Attempt<T>, maxRetries: int): nat {
    if maxRetries < 0 then 0 else StopIndex(operation, maxRetries, 0) + 1
  }

  /**
   * `withRetry(operation, maxRetries)`, with `operation(i)` the outcome of the i-th call.
   * Returns what it resolves or throws, how many calls it made, and the delays it waited.
   */
  method WithRetry<T>(operation: nat -> Attempt<T>, maxRetries: int)
    returns (r: Result<T, Option<Thrown>>, calls: nat, delays: seq<int>)
    ensures r == RetryResult(operation, maxRetries)
    ensures calls == RetryCalls(operation, maxRetries)
    ensures |delays| == if calls == 0 then 0 else calls - 1
    ensures forall k :: 0 <= k < |delays| ==> delays[k] == DelayBefore(k + 1)
  {
    calls := 0;
    delays := [];
    var attempt := 0;
    while attempt <= maxRetries
      invariant 0 <= attempt && calls == attempt
      invariant maxRetries >= 0 ==> attempt <= maxRetries + 1
      invariant forall i :: 0 <= i < attempt ==> !StopsAfter(operation(i))
      invariant |delays| == (if attempt == 0 then 0 else attempt - 1)
      invariant forall k :: 0 <= k < |delays| ==> delays[k] == DelayBefore(k + 1)
      invariant attempt > maxRetries ==> maxRetries < 0 && attempt == 0
      decreases maxRetries - attempt + 1
    {
      if attempt > 0 {
        delays := delays + [DelayBefore(attempt)];
      }
      var stop, result := TryOnce(operation(attempt), attempt == maxRetries);
      calls := calls + 1;
      if stop {
        RetryStopsAt(operation, maxRetries, attempt);
        return result, calls, delays;
      }
      attempt := attempt + 1;
    }
    r := Err(None);
  }

  /** Once attempt `i` stops the loop, after attempts that did not, `withRetry` makes `i + 1` calls and resolves to attempt `i`. */
  lemma RetryStopsAt<T>(operation: nat -> Attempt<T>, maxRetries: int, i: nat)
    requires i <= maxRetries
    requires i == maxRetries || StopsAfter(operation(i))
    requires forall k :: 0 <= k < i ==> !StopsAfter(operation(k))
    ensures RetryCalls(operation, maxRetries) == i + 1
    ensures RetryResult(operation, maxRetries) ==
      match operation(i)
      case Succeeds(v) => Ok(v)
      case Fails(e) => Err(Some(AsError(e)))
  {
    StopIndexAt(operation, maxRetries, 0, i);
  }

  /**
   * One pass of the loop body: a success resolves; a failure on the last attempt,
   * or one `handleError` calls non-retryable, throws the error.
   */
  method TryOnce<T>(outcome: Attempt<T>, last: bool) returns (stop: bool, r: Result<T, Option<Thrown>>)
    ensures stop <==> last || StopsAfter(outcome)
    ensures stop && outcome.Succeeds? ==> r == Ok(outcome.value)
    ensures stop && outcome.Fails? ==> r == Err(Some(AsError(outcome.error)))
  {
    if outcome.Succeeds? {
      return true, Ok(outcome.value);
    }
    var lastError := AsError(outcome.error);
    r := Err(Some(lastError));
    if last {
      return true, r;
    }
    var handled := HandleError(lastError, None, 0);
    stop := !handled.retryable;
  }

  /** At most `maxRetries + 1` calls, and none for a negative bound. */
  lemma RetryCallsBound<T>(operation: nat -> Attempt<T>, maxRetries: int)
    ensures maxRetries < 0 ==> RetryCalls(operation, maxRetries) == 0 && RetryResult(operation, maxRetries) == Err(None)
    ensures maxRetries >= 0 ==> 1 <= RetryCalls(operation, maxRetries) <= maxRetries + 1
  {
  }

  /**
   * A success is the first success, after failures that were all retryable; a
   * thrown error is the last call's error.
   */
  lemma RetryResultIsLastCall<T>(operation: nat -> Attempt<T>, maxRetries: int)
    requires maxRetries >= 0
    ensures var n := RetryCalls(operation, maxRetries);
      (forall i :: 0 <= i < n - 1 ==> operation(i).Fails? && IsRetryable(IdentifyErrorType(AsError(operation(i).error)))) &&
      (RetryResult(operation, maxRetries).Ok? <==> operation(n - 1).Succeeds?) &&
      (RetryResult(operation, maxRetries).Ok? ==> RetryResult(operation, maxRetries).value == operation(n - 1).value) &&
      (RetryResult(operation, maxRetries).Err? ==> RetryResult(operation, maxRetries).error == Some(AsError(operation(n - 1).error)))
  {
  }

  /** A non-retryable failure after retryable ones ends the loop right there. */
  lemma {:induction false} NonRetryableStops<T>(operation: nat -> Attempt<T>, maxRetries: int, i: nat)
    requires i <= maxRetries
    requires operation(i).Fails? && !IsRetryable(IdentifyErrorType(AsError(operation(i).error)))
    requires forall k :: 0 <= k < i ==> !StopsAfter(operation(k))
    ensures RetryCalls(operation, maxRetries) == i + 1
    ensures RetryResult(operation, maxRetries) == Err(Some(AsError(operation(i).error)))
  {
    StopIndexAt(operation, maxRetries, 0, i);
  }

  lemma {:induction false} StopIndexAt<T>(operation: nat -> Attempt<T>, maxRetries: nat, from: nat, i: nat)
    requires from <= i <= maxRetries
    requires i == maxRetries || StopsAfter(operation(i))
    requires forall k :: from <= k < i ==> !StopsAfter(operation(k))
    ensures StopIndex(operation, maxRetries, from) == i
    decreases i - from
  {
    if from < i {
      StopIndexAt(operation, maxRetries, from + 1, i);
    }
  }

  /** The delay index never leaves `RETRY_DELAYS`, and from the third retry on it is the last delay. */
  lemma DelaysBounded(attempt: nat)
    requires attempt > 0
    ensures DelayBefore(attempt) in RetryDelays
    ensures attempt >= |RetryDelays| ==> DelayBefore(attempt) == 5000
  {
  }

  /** withRetry's unit tests: immediate success makes one call. */
  lemma SucceedsAtOnce<T>(operation: nat -> Attempt<T>, v: T)
    requires operation(0) == Succeeds(v)
    ensures RetryCalls(operation, 3) == 1 && RetryResult(operation, 3) == Ok(v)
  {
  }

  /** Two retryable failures and then a success make three calls and resolve to the success. */
  lemma SucceedsOnThirdCall<T>(operation: nat -> Attempt<T>, v: T)
    requires operation(0).Fails? && operation(1).Fails?
    requires IsRetryable(IdentifyErrorType(AsError(operation(0).error)))
    requires IsRetryable(IdentifyErrorType(AsError(operation(1).error)))
    requires operation(2) == Succeeds(v)
    ensures RetryCalls(operation, 3) == 3 && RetryResult(operation, 3) == Ok(v)
  {
    StopIndexAt(operation, 3, 0, 2);
  }

  /** A persistent retryable failure with `maxRetries = 2` makes three calls and throws that error. */
  lemma PersistentFailure<T>(operation: nat -> Attempt<T>, e: Thrown)
    requires forall i :: operation(i) == Fails(e)
    requires IsRetryable(IdentifyErrorType(AsError(e)))
    ensures RetryCalls(operation, 2) == 3 && RetryResult(operation, 2) == Err(Some(AsError(e)))
  {
    StopIndexAt(operation, 2, 0, 2);
  }

  /** None of the non-retryable rules' keywords occurs in "persistent error". */
  lemma PersistentLacksSignature()
    ensures !MessageRule("persistent error", SignatureError)
  {
    var m := "persistent error";
    assert 'g' !in m && 'v' !in m && 'c' !in m && 'u' !in m;
    Lacks(m, "signature", 2);
    Lacks(m, "verify", 0);
    Lacks(m, "certificate", 0);
    Lacks(m, "untrusted", 0);
    Lacks(m, "invalid signature", 2);
  }

  lemma PersistentLacksPermission()
    ensures !MessageRule("persistent error", PermissionError)
  {
    var m := "persistent error";
    Lacks(m, "permission", 3);
    Lacks(m, "access denied", 0);
    Lacks(m, "eacces", 1);
    Lacks(m, "eperm", 4);
  }

  lemma PersistentLacksDiskSpace()
    ensures !MessageRule("persistent error", DiskSpaceError)
  {
    var m := "persistent error";
    Lacks(m, "no space", 5);
    Lacks(m, "disk full", 0);
    Lacks(m, "enospc", 5);
  }

  /** The message of the persistent-failure test, "persistent error", is retryable. */
  lemma PersistentErrorIsRetryable()
    ensures IsRetryable(IdentifyErrorType(NewError("persistent error", None)))
  {
    var e := NewError("persistent error", None);
    LowerOfLower("persistent error");
    PersistentLacksSignature();
    PersistentLacksPermission();
    PersistentLacksDiskSpace();
    var fires := u => Rule(e, u);
    assert !fires(SignatureError) && !fires(PermissionError) && !fires(DiskSpaceError);
    FirstRuleIsFirst(fires, SignatureError);
    FirstRuleIsFirst(fires, PermissionError);
    FirstRuleIsFirst(fires, DiskSpaceError);
  }
}
