/** The values the chat server passes around: messages, profile attributes and
    client records. The Go types `client` and `message` are declared in a file
    that is not part of this model; only the parts the room and the avatar
    lookup touch are kept. */
module Chat {

  datatype Option<+T> = None | Some(value: T)

  /** A client pointer, reduced to its identity. */
  type ClientId = nat

  /** A chat message; the room only reads its `Message` text (for tracing). */
  datatype Message = Message(message: string)

  /** A value of the profile map `map[string]interface{}`: either a Go string
      or anything else (a number, a nested map, nil, ...). */
  datatype Value = Str(s: string) | Other

  /** The profile attributes of a client. A nil Go map reads like an empty one,
      so both are `map[]`. */
  type UserData = map<string, Value>

  /** One client: its buffered `send` channel (queued messages and whether it
      has been closed) and its profile. The socket and the back-reference to
      the room are not modelled. */
  datatype Client = Client(send: seq<Message>, closed: bool, userData: UserData)

  /** The zero value `new(client)`: no queued messages, a nil profile. */
  const ZERO_CLIENT := Client([], false, map[])
}
