/** The chat protocol's frames. Every frame is one JSON object; a field the
    object does not carry is None, which is what `data.get(field)` sees. */
module Wire {
  import opened Wrappers

  /** The value of datetime.now(), as an abstract clock reading in seconds. */
  type Time = int

  datatype Frame = Frame(
    kind: Option<string>,              // "type"
    username: Option<string>,
    message: Option<string>,
    users: Option<seq<string>>,
    typingUsers: Option<seq<string>>,  // "typing_users"
    timestamp: Option<Time>)

  /** {"type": kind} */
  function Typed(kind: string): Frame
  {
    Frame(Some(kind), None, None, None, None, None)
  }

  predicate IsKind(f: Frame, kind: string)
  {
    f.kind == Some(kind)
  }

  // Frames the server writes.

  /** {"type": "user_joined"/"user_left", "username", "timestamp", "users"} */
  function UserEvent(kind: string, who: string, now: Time, roster: seq<string>): Frame
  {
    Frame(Some(kind), Some(who), None, Some(roster), None, Some(now))
  }

  /** {"type": "typing_status", "typing_users", "timestamp"} */
  function TypingStatus(names: seq<string>, now: Time): Frame
  {
    Frame(Some("typing_status"), None, None, None, Some(names), Some(now))
  }

  /** {"type": "chat", "username", "message", "timestamp"} */
  function ChatFrom(sender: string, text: string, now: Time): Frame
  {
    Frame(Some("chat"), Some(sender), Some(text), None, None, Some(now))
  }

  /** {"type": "error", "message"} */
  function ErrorFrame(text: string): Frame
  {
    Frame(Some("error"), None, Some(text), None, None, None)
  }

  /** {"type": "user_list", "users"} */
  function UserList(roster: seq<string>): Frame
  {
    Frame(Some("user_list"), None, None, Some(roster), None, None)
  }

  // Frames the client writes.

  /** {"type": "join", "username"} */
  function Join(name: string): Frame
  {
    Frame(Some("join"), Some(name), None, None, None, None)
  }

  /** {"type": "chat", "message"}: the client leaves the sender out. */
  function ChatText(text: string): Frame
  {
    Frame(Some("chat"), None, Some(text), None, None, None)
  }

  /** {"type": "flowey", "message"} */
  function FloweyQuery(text: string): Frame
  {
    Frame(Some("flowey"), None, Some(text), None, None, None)
  }

  /** Frames the server only sends after an eviction: the departure notice
      and the typing roster that follows it. */
  predicate IsEvictionNotice(f: Frame)
  {
    IsKind(f, "user_left") || IsKind(f, "typing_status")
  }
}
