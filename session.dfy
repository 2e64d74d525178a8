/** What every chat page shares: the state of its WebSocket as the browser reports it, the
    lines of its chat log, and the constants of its reconnection policy. */
module Session {
  import opened Codec

  /** The page's socket as the browser sees it. `Failed` is a socket whose `readyState` is
      already CLOSED (after an error) but whose `close` event has not been delivered yet. */
  datatype SocketState = NoSocket | Connecting | Open | Closing | Failed | Closed

  /** `myWebSocket && myWebSocket.readyState === WebSocket.OPEN`. */
  predicate IsOpen(s: SocketState) {
    s == Open
  }

  /** `myWebSocket && myWebSocket.readyState !== WebSocket.CLOSED`: a socket `close()` acts on. */
  predicate NotClosed(s: SocketState) {
    s == Connecting || s == Open || s == Closing
  }

  /** A socket that will still deliver a `close` event. */
  predicate CloseDue(s: SocketState) {
    s == Connecting || s == Open || s == Closing || s == Failed
  }

  /** The system messages the pages show (`myDisplaySystemMessage`), one constructor per call
      site; `NoticeText` gives the exact text and `IsError` the style. */
  datatype Notice =
    | ConnectPrompt
    | AddressPrompt
    | NotConnected
    | Welcome(name: string)
    | WelcomeLocal
    | ConnectedToServer
    | ClosedRetrying
    | FromServer(text: string)

  function NoticeText(n: Notice): string {
    match n
    case ConnectPrompt => "Please enter your name and select a server address."
    case AddressPrompt => "Please select or enter a server address."
    case NotConnected => "Cannot send. Not connected to server."
    case Welcome(name) => "Welcome, " + name + "!"
    case WelcomeLocal => "Welcome to the local chat!"
    case ConnectedToServer => "Connected to server"
    case ClosedRetrying => "Connection closed. Retrying..."
    case FromServer(text) => text
  }

  /** Shown with the 'error' style rather than the 'system' one. */
  predicate IsError(n: Notice) {
    n == ConnectPrompt || n == AddressPrompt || n == NotConnected
  }

  /** One entry of the chat log: a system message, or a bubble (`own` for the page's own
      message). */
  datatype Line = SystemLine(notice: Notice) | Bubble(content: Content, own: bool)

  /** `myMaxRetries`. */
  const MaxRetries: nat := 5

  /** The close code `myInitWebSocket` passes when it drops a socket it replaces: normal
      closure, section 7.4.1 of RFC 6455. */
  const NormalClosure: int := 1000

  function Pow2(n: nat): (r: nat)
    ensures r >= 1
  {
    if n == 0 then 1 else 2 * Pow2(n - 1)
  }

  /** `Math.pow(2, myRetryCount) * 1000`, the wait before attempt number `count`. */
  function RetryDelay(count: nat): (d: nat)
    ensures d >= 1000
  {
    Pow2(count) * 1000
  }

  /** The waits the bounded backoff can schedule. */
  predicate IsBackoffDelay(d: int) {
    d == 2000 || d == 4000 || d == 8000 || d == 16000 || d == 32000
  }

  /** Attempts 1 to `MaxRetries` wait 2, 4, 8, 16 and 32 seconds: every wait is a backoff delay,
      and each is twice the one before. */
  lemma RetryDelayBounds(count: nat)
    requires 1 <= count <= MaxRetries
    ensures IsBackoffDelay(RetryDelay(count))
    ensures count > 1 ==> RetryDelay(count) == 2 * RetryDelay(count - 1)
  {
    assert Pow2(1) == 2;
    assert Pow2(2) == 4;
    assert Pow2(3) == 8;
    assert Pow2(4) == 16;
    assert Pow2(5) == 32;
  }

  /** All the waits in a schedule are backoff delays. */
  predicate AllBackoff(ds: seq<int>) {
    forall k :: 0 <= k < |ds| ==> IsBackoffDelay(ds[k])
  }
}
