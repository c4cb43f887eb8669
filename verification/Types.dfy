/** Fixed-width integers, byte strings and the record types shared by the models. */
module Types {

  type u8 = x: int | 0 <= x < 0x100
  type u16 = x: int | 0 <= x < 0x1_0000
  type u32 = x: int | 0 <= x < 0x1_0000_0000
  type u64 = x: int | 0 <= x < 0x1_0000_0000_0000_0000
  type i64 = x: int | -0x8000_0000_0000_0000 <= x < 0x8000_0000_0000_0000

  type Bytes = seq<u8>

  datatype Option<+T> = None | Some(value: T)

  /** One symbolized frame; module and symbol names are kept as their UTF-8 bytes. */
  datatype StackFrame = StackFrame(pc: u64, moduleName: Bytes, symbol: Bytes, offset: u64)

  datatype StackTrace = StackTrace(
    quality: u8, truncated: u8, kFrames: seq<StackFrame>, uFrames: seq<StackFrame>, failureReason: Bytes)

  /** BinderEventPayload: what the daemon hands to its event callback and puts on the wire. */
  datatype BinderEvent = BinderEvent(
    timestamp: i64, pid: u32, uid: u32, code: u32, flags: u32, dataSize: u32,
    isReply: u8, binderDev: u8, targetKind: u8, toPid: u32, toUid: u32,
    targetRef: u64, pairId: u64, parcel: Bytes, stack: Option<StackTrace>)
}
