/** Values shared by every part of the guest transport model. */
module GuestTypes {
  type u64 = x: nat | x < 0x1_0000_0000_0000_0000
  type u32 = x: nat | x < 0x1_0000_0000
  type byte = x: nat | x < 256

  /** A Vulkan handle reduced to its bits; zero is the null handle. */
  type Handle = u64

  const GPU_DEVICE_ID := 1
  const INT_MAX := 0x7FFF_FFFF

  datatype Option<+T> = None | Some(value: T)

  /**
   * One parameter of a frozen call.  A null pointer may carry a nominal length;
   * any other parameter owns its bytes.
   */
  datatype Param = Null(nominal: u64) | Data(bytes: seq<byte>)

  /**
   * A frozen call.  framed is false when the sizes of its descriptors and of its
   * backing stores disagree, which every consumer of a frozen call checks first.
   */
  datatype Call = Call(deviceId: nat, funId: nat, params: seq<Param>, framed: bool)

  /** What the host decoder is handed for one call, however it travelled. */
  datatype HostCall = HostCall(id: nat, params: seq<Param>)

  /**
   * The fate of one physical request: refused locally before anything was sent,
   * lost, delivered but not acknowledged, or delivered and acknowledged.
   */
  datatype Outcome = Refused | Lost | InDoubt | Acked

  /** Decides the fate of the n-th physical request of a run. */
  type Net = nat -> Outcome

  predicate Delivered(o: Outcome) { o == InDoubt || o == Acked }

  /** The call id on the wire, without the middle-byte flags only synchronous calls carry. */
  function CallId(call: Call): nat { call.deviceId * 0x1_0000_0000 + call.funId }

  function Received(call: Call): HostCall { HostCall(CallId(call), call.params) }

  /** Type-I functions whose recording hook may ask for clustering. */
  predicate TypeICluster(funId: int) {
    funId == 1025 || funId == 1027 || 1044 <= funId <= 1046 || funId == 1057
  }

  /**
   * Commands whose payload the semantic matcher may ignore: every vkCmd function except
   * the draw family (1047 to 1052) and the Type-I functions, which have hooks of their own.
   */
  predicate TypeIWildcard(funId: int) {
    1021 <= funId <= 1099 && !TypeICluster(funId) && !(1047 <= funId <= 1052)
  }

  /** Raw calls that must not overtake an already released route prefix. */
  predicate EarlyRouteBarrier(funId: int) {
    || funId == 1013 || funId == 1014 || funId == 1016 || funId == 1102
    || 1104 <= funId <= 1106 || 1128 <= funId <= 1133 || funId == 1139 || funId == 1147
    || funId == 1154 || funId == 1163 || funId == 1180 || funId == 1181 || funId == 1232
    || 1238 <= funId <= 1240 || funId == 1249 || funId == 1250
  }

  predicate Clusterable(funId: int) { TypeICluster(funId) || TypeIWildcard(funId) }
}
