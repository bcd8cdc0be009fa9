/** Identifiers and small value types shared by the betting and snipe commands. */
module Common {

  /** The conventional Some/None datatype, standing for Rust's `Option`. */
  datatype Option<+T> = None | Some(value: T)

  /** Discord snowflakes. The bot only compares them for equality. */
  type UserId = nat
  type MessageId = nat
  type ChannelId = nat
  type InteractionId = nat

  /** A bet amount: the `u32` the amount text box is parsed into. */
  type Amount = n: nat | n < 0x1_0000_0000

  /** The largest value a `u32` holds. */
  const MaxAmount: Amount := 0xFFFF_FFFF

  /** The two fixed teams of a round. `Red` is `teams[0]` (winner `false`),
      `Blue` is `teams[1]` (winner `true`). */
  datatype Side = Red | Blue {

    function Other(): (s: Side)
      ensures s != this
    {
      if this == Red then Blue else Red
    }
  }
}
