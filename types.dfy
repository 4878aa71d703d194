/**
  Value types shared by the plugin and the audio SDK binding it calls:
  identifiers, callback masks, result codes, callback records, the SDK's
  transform record and file-system paths.
*/
module Types {

  datatype Option<+T> = None | Some(value: T)

  /** The source's `u32` and `u64`. */
  type U32 = x: nat | x < 0x1_0000_0000
  type U64 = x: nat | x < 0x1_0000_0000_0000_0000

  /** AkPlayingID: the SDK's handle on one playing instance of an event. */
  type PlayingId = U32

  /** AK_INVALID_PLAYING_ID: what the plugin returns when nothing was posted. */
  const INVALID_PLAYING_ID: PlayingId := 0

  /** AkGameObjectID: the SDK's handle on a registered emitter or listener. */
  type GameObjectId = U64

  /** AkCallbackType: a 32-bit mask of callback kinds. */
  type CallbackMask = bv32

  /** AK_EndOfEvent, bit 0 of the callback mask in the SDK's headers. */
  const END_OF_EVENT: CallbackMask := 1

  /** AkID: an event named by string or by numeric ID. */
  datatype AkId = Name(name: string) | Id(id: U32)

  /** Every AkResult other than AK_Success: AK_Fail, and the others by code. */
  datatype AkError = Fail | Code(code: nat)

  /** Rust's `Result<T, AkResult>` as the binding returns it. */
  datatype Result<+T> = Ok(value: T) | Err(error: AkError)

  /** AkCallbackInfo: the Event variant, and every other variant (markers,
      durations, music sync, ...) reduced to its type and playing ID. */
  datatype CallbackInfo =
    | EventCallback(callbackType: CallbackMask, playingId: PlayingId, eventId: U32, gameObj: GameObjectId)
    | OtherCallback(callbackType: CallbackMask, playingId: PlayingId)

  /** The pattern `AkCallbackInfo::Event { callback_type: AK_EndOfEvent, .. }`. */
  predicate IsEndOfEvent(info: CallbackInfo) {
    info.EventCallback? && info.callbackType == END_OF_EVENT
  }

  /** Concatenation is associative; stated once so that proofs about growing
      logs can regroup them without element-wise reasoning. */
  lemma AppendAssoc<T>(a: seq<T>, b: seq<T>, c: seq<T>)
    ensures (a + b) + c == a + (b + c)
  {
  }

  /** A 3-vector over an exact numeric type (no floating-point rounding). */
  datatype Vec3 = Vec3(x: real, y: real, z: real)

  function Dot(a: Vec3, b: Vec3): real {
    a.x * b.x + a.y * b.y + a.z * b.z
  }

  /** AkTransform: a position and the front and top orientation vectors. */
  datatype AkTransform = AkTransform(position: Vec3, orientationFront: Vec3, orientationTop: Vec3)

  /** A file-system path: absolute or relative, and its components. */
  datatype Path = Path(absolute: bool, parts: seq<string>)

  function RelativePath(parts: seq<string>): Path {
    Path(false, parts)
  }

  /** `Path::join`: joining an absolute path replaces the base, joining a
      relative path appends its components. */
  function Join(base: Path, other: Path): (r: Path)
    ensures other.absolute ==> r == other
    ensures !other.absolute ==> r.absolute == base.absolute && r.parts == base.parts + other.parts
  {
    if other.absolute then other else Path(base.absolute, base.parts + other.parts)
  }

  /** Joining is associative, so `root.join(a).join(b)` is `root.join(a.join(b))`. */
  lemma JoinAssociative(a: Path, b: Path, c: Path)
    ensures Join(Join(a, b), c) == Join(a, Join(b, c))
  {
    if !c.absolute && !b.absolute {
      assert (a.parts + b.parts) + c.parts == a.parts + (b.parts + c.parts);
    }
  }
}
