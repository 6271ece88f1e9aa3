/** Telemetry events as producers offer them and as the consumer hands them on. */
module Events {

  /** The bytes of a C string; one character stands for one byte. */
  type Text = string

  /** PSCH_MAX_QUERY_LEN and PSCH_MAX_ERR_MSG_LEN, terminating NUL included. */
  const MAX_TEXT: nat := 2048

  /** PSCH_LOCAL_BATCH_CAPACITY. */
  const BATCH_CAPACITY: nat := 8

  /** The fixed-size prefix that is block-copied between event and ring slot.
      `dbid` and `queryid` feed the interner's key; `rest` stands for every other
      numeric field, name and address. */
  datatype Fixed = Fixed(dbid: nat, queryid: nat, rest: seq<int>)

  /** PschEvent: the fixed prefix and the two variable-length texts. */
  datatype Event = Event(fixed: Fixed, err: Text, query: Text)

  /** What a text becomes when it is stored: the part that fits with its NUL. */
  function Clamp(t: Text): (r: Text)
    ensures r <= t && |r| < MAX_TEXT
    ensures |t| < MAX_TEXT ==> r == t
    ensures |t| >= MAX_TEXT ==> |r| == MAX_TEXT - 1
  {
    if |t| >= MAX_TEXT then t[..MAX_TEXT - 1] else t
  }

  /** Why a text is or is not carried by a queued event. */
  datatype Fate = Kept | NoText | OutOfMemory | Collision | TableFull

  datatype Option<+T> = None | Some(value: T)
}
