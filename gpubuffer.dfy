/**
 * The client-side mapping state machine of a WebGPU buffer (`GPUBuffer` in the
 * scripting layer): `mapAsync`, the response handler, `getMappedRange`, `unmap`,
 * `destroy`, the label accessors and the implicit destroy on drop.
 *
 * External collaborators are abstract objects:
 *   - the IPC channel to the GPU process is a log of sent requests; a send fails
 *     exactly when the channel is closed;
 *   - a promise is a three-valued cell (pending, resolved, rejected with an error kind);
 *   - a JS ArrayBuffer created over the mapping is a handle with a `detached` flag;
 *   - the device's error scope is a log of validation-error messages.
 *
 * A Rust panic (an `unwrap` on `None`, an out-of-bounds slice, `unreachable!`) is a
 * `Panicked` outcome. Every panic modelled here happens before any field is written,
 * so a panicking call leaves the buffer as it was. The engine failing to create a view
 * in getMappedRange is not modelled: the code would record the range and a null view
 * first, and panic only after that.
 *
 * Offsets and sizes are `nat`: WebIDL's [EnforceRange] keeps every `GPUSize64`
 * argument below 2^53, so the source's u64 additions cannot wrap.
 */
module WebGpuBuffer {
  import opened Options

  /** `getMappedRange` offsets must be multiples of 8 and sizes multiples of 4. */
  const RANGE_OFFSET_ALIGN: nat := 8
  const RANGE_SIZE_ALIGN: nat := 4

  /** `GPUMapMode.READ` and `GPUMapMode.WRITE`. */
  const MAP_MODE_READ: nat := 1
  const MAP_MODE_WRITE: nat := 2

  const NOT_UNMAPPED_MESSAGE: string := "Buffer is not Unmapped"
  const INVALID_MAP_MODE_MESSAGE: string := "Invalid MapModeFlags"

  datatype BufferState = Mapped | MappedAtCreation | MappingPending | Unmapped | Destroyed

  /** The half-open byte interval `[start, end)` (Rust's `Range<u64>`). */
  datatype Range = Range(start: nat, end: nat)

  /** The two DOM exceptions this code rejects with: OperationError and AbortError. */
  datatype ErrorKind = Operation | Abort

  datatype PromiseState = Pending | Resolved | Rejected(error: ErrorKind)

  datatype HostMap = Read | Write

  /** Requests sent to the GPU process. */
  datatype Request =
    | UnmapBuffer(bufferId: nat, deviceId: nat, arrayBuffer: seq<bv8>, isMapRead: bool, offset: nat, size: nat)
    | DestroyBuffer(bufferId: nat)
    | BufferMapAsync(bufferId: nat, deviceId: nat, hostMap: HostMap, mapRange: Range)
    | BufferMapComplete(bufferId: nat)

  /** What the GPU process answers to a map request. */
  datatype Response = BufferMapAsyncBytes(bytes: seq<bv8>) | OtherResponse
  datatype ResponseResult = Ok(response: Response) | Err(message: string)

  datatype Outcome = Completed | Panicked(reason: string)

  datatype MappedRangeResult =
    | View(buffer: ArrayBuffer)
    | Failed(error: ErrorKind)
    | RangePanicked(reason: string)

  /** A JS promise: settling an already settled promise has no effect. */
  class Promise {
    var state: PromiseState

    constructor ()
      ensures state == Pending
    {
      state := Pending;
    }

    method Resolve()
      modifies this
      ensures state == if old(state) == Pending then Resolved else old(state)
    {
      if state == Pending {
        state := Resolved;
      }
    }

    method Reject(error: ErrorKind)
      modifies this
      ensures state == if old(state) == Pending then Rejected(error) else old(state)
    {
      if state == Pending {
        state := Rejected(error);
      }
    }
  }

  /** An external ArrayBuffer aliasing `[byteOffset, byteOffset + byteLength)` of the mapping. */
  class ArrayBuffer {
    const byteOffset: nat
    const byteLength: nat
    var detached: bool

    constructor (byteOffset: nat, byteLength: nat)
      ensures this.byteOffset == byteOffset && this.byteLength == byteLength && !detached
    {
      this.byteOffset := byteOffset;
      this.byteLength := byteLength;
      detached := false;
    }

    method Detach()
      modifies this
      ensures detached
    {
      detached := true;
    }
  }

  /** The IPC channel: a successful send appends to `sent`; on a closed channel every send fails. */
  class Channel {
    var open: bool
    var sent: seq<Request>

    constructor (open: bool)
      ensures this.open == open && sent == []
    {
      this.open := open;
      sent := [];
    }

    /** What a send of `r` adds to the log. */
    function Delivered(r: Request): seq<Request>
      reads this
    {
      if open then [r] else []
    }

    method Send(r: Request) returns (ok: bool)
      modifies this`sent
      ensures ok == open
      ensures sent == old(sent) + Delivered(r)
    {
      ok := open;
      if ok {
        sent := sent + [r];
      }
    }
  }

  /** The owning device; `validationErrors` is what reached its error scope. */
  class Device {
    const id: nat
    var validationErrors: seq<string>

    constructor (id: nat)
      ensures this.id == id && validationErrors == []
    {
      this.id := id;
      validationErrors := [];
    }

    method HandleValidationError(message: string)
      modifies this`validationErrors
      ensures validationErrors == old(validationErrors) + [message]
    {
      validationErrors := validationErrors + [message];
    }
  }

  /** The map-info record: the mapped bytes, the mapped interval, the views handed out and the map mode. */
  datatype MapInfo = MapInfo(
    mapping: seq<bv8>,
    mappingRange: Range,
    mappedRanges: seq<Range>,
    jsBuffers: seq<ArrayBuffer>,
    mapMode: Option<nat>)

  /** The overlap test of getMappedRange: `a` lies wholly at or after the end of `b`, or wholly before its start. */
  predicate Disjoint(a: Range, b: Range) {
    a.start >= b.end || a.end <= b.start
  }

  predicate InRange(x: int, r: Range) {
    r.start <= x < r.end
  }

  predicate PairwiseDisjoint(rs: seq<Range>) {
    forall i, j :: 0 <= i < j < |rs| ==> Disjoint(rs[i], rs[j])
  }

  /** The view registry: one handle per recorded range, each over exactly its range, all inside the mapping and pairwise disjoint. */
  predicate RegistryValid(info: MapInfo) {
    && info.mappingRange.start <= info.mappingRange.end
    && |info.mappedRanges| == |info.jsBuffers|
    && (forall i :: 0 <= i < |info.mappedRanges| ==>
          && info.mappingRange.start <= info.mappedRanges[i].start <= info.mappedRanges[i].end <= info.mappingRange.end
          && info.jsBuffers[i].byteOffset == info.mappedRanges[i].start
          && info.jsBuffers[i].byteLength == info.mappedRanges[i].end - info.mappedRanges[i].start)
    && PairwiseDisjoint(info.mappedRanges)
  }

  /** The size a call works on: the given one, else the rest of the whole buffer after `offset`. */
  function DefaultRangeSize(size: Option<nat>, offset: nat, bufferSize: nat): (r: Option<nat>)
    ensures r.None? <==> size.None? && offset >= bufferSize
    ensures size.Some? ==> r == size
    ensures size.None? && r.Some? ==> 0 < r.value && offset + r.value == bufferSize
  {
    match size
    case Some(s) => Some(s)
    case None => if offset >= bufferSize then None else Some(bufferSize - offset)
  }

  /** The validity test of getMappedRange for the interval `[offset, offset + rangeSize)`. */
  predicate RangeIsValid(state: BufferState, info: MapInfo, offset: nat, rangeSize: nat) {
    && (state == Mapped || state == MappedAtCreation)
    && offset % RANGE_OFFSET_ALIGN == 0
    && rangeSize % RANGE_SIZE_ALIGN == 0
    && offset >= info.mappingRange.start
    && offset + rangeSize <= info.mappingRange.end
    && forall r :: r in info.mappedRanges ==> Disjoint(r, Range(offset, offset + rangeSize))
  }

  /** What getMappedRange decides before it creates a view. */
  datatype RangeDecision =
    | RefuseRange                               // rejected with an Operation error
    | PanicOnRange(reason: string)              // an unwrap or a slice would panic
    | GrantRange(offset: nat, rangeSize: nat)   // a view of `rangeSize` bytes at `offset` is created

  /**
   * The decision of getMappedRange: the size defaults to the rest of the whole buffer
   * (an offset at or past its end is refused); the map info is unwrapped before the
   * validity test; the mapping bytes are then sliced at absolute buffer offsets.
   */
  function MappedRangeDecision(state: BufferState, mapInfo: Option<MapInfo>, offset: nat, size: Option<nat>, bufferSize: nat)
    : (d: RangeDecision)
    ensures d.GrantRange? <==>
      && DefaultRangeSize(size, offset, bufferSize).Some? && mapInfo.Some?
      && RangeIsValid(state, mapInfo.value, offset, DefaultRangeSize(size, offset, bufferSize).value)
      && offset + DefaultRangeSize(size, offset, bufferSize).value <= |mapInfo.value.mapping|
    ensures d.GrantRange? ==> d.offset == offset && d.rangeSize == DefaultRangeSize(size, offset, bufferSize).value
    ensures d.GrantRange? && size.None? ==> d.offset + d.rangeSize == bufferSize
    ensures d.RefuseRange? <==>
      || DefaultRangeSize(size, offset, bufferSize).None?
      || (mapInfo.Some? && !RangeIsValid(state, mapInfo.value, offset, DefaultRangeSize(size, offset, bufferSize).value))
    ensures d.GrantRange? ==> state == Mapped || state == MappedAtCreation
  {
    match DefaultRangeSize(size, offset, bufferSize)
    case None => RefuseRange
    case Some(rangeSize) =>
      if mapInfo.None? then PanicOnRange("called `Option::unwrap()` on a `None` value")
      else if !RangeIsValid(state, mapInfo.value, offset, rangeSize) then RefuseRange
      else if offset + rangeSize > |mapInfo.value.mapping| then PanicOnRange("range end index out of range for slice")
      else GrantRange(offset, rangeSize)
  }

  /** What mapAsync decides before it sends anything. */
  datatype MapCheck =
    | Proceed(hostMap: HostMap, mapRange: Range)
    | Reject(error: ErrorKind, validationError: Option<string>)

  /** The checks of mapAsync in the order the code makes them. */
  function MapAsyncCheck(state: BufferState, bufferSize: nat, mode: nat, offset: nat, size: Option<nat>): (r: MapCheck)
    // it proceeds exactly for an unmapped buffer, a read or write mode and an in-range default size
    ensures r.Proceed? <==>
      && state == Unmapped
      && (mode == MAP_MODE_READ || mode == MAP_MODE_WRITE)
      && (size.Some? || offset < bufferSize)
    // the offset check comes first, whatever the state, and reports nothing to the device
    ensures size.None? && offset >= bufferSize ==> r == Reject(Operation, None)
    ensures r.Reject? && r.error == Operation ==> size.None? && offset >= bufferSize
    // then the state check, then the mode check; each Abort goes with a validation error
    ensures (size.Some? || offset < bufferSize) && state != Unmapped ==>
      r == Reject(Abort, Some(NOT_UNMAPPED_MESSAGE))
    ensures (size.Some? || offset < bufferSize) && state == Unmapped && mode != MAP_MODE_READ && mode != MAP_MODE_WRITE ==>
      r == Reject(Abort, Some(INVALID_MAP_MODE_MESSAGE))
    // the mapped interval starts at offset and ends after size bytes, or at the end of the buffer
    ensures r.Proceed? ==>
      && r.hostMap == (if mode == MAP_MODE_READ then Read else Write)
      && r.mapRange.start == offset
      && r.mapRange.end == (if size.Some? then offset + size.value else bufferSize)
  {
    match DefaultRangeSize(size, offset, bufferSize)
    case None => Reject(Operation, None)
    case Some(rangeSize) =>
      if state != Unmapped then Reject(Abort, Some(NOT_UNMAPPED_MESSAGE))
      else if mode == MAP_MODE_READ then Proceed(Read, Range(offset, offset + rangeSize))
      else if mode == MAP_MODE_WRITE then Proceed(Write, Range(offset, offset + rangeSize))
      else Reject(Abort, Some(INVALID_MAP_MODE_MESSAGE))
  }

  /** Whether the response handler panics: no response, a response of the wrong kind, or bytes with no map info to put them in. */
  predicate ResponsePanics(response: Option<ResponseResult>, mapInfo: Option<MapInfo>) {
    || response.None?
    || (response.value.Ok? && response.value.response.OtherResponse?)
    || (response.value.Ok? && mapInfo.None?)
  }

  class GPUBuffer {
    const channel: Channel
    const device: Device
    const bufferId: nat
    const size: nat
    var labelText: string
    var state: BufferState
    var mapPromise: Option<Promise>
    var mapInfo: Option<MapInfo>

    ghost function StoredPromise(): set<Promise>
      reads this
    {
      if mapPromise.Some? then {mapPromise.value} else {}
    }

    ghost function Views(): set<ArrayBuffer>
      reads this
    {
      if mapInfo.Some? then set b | b in mapInfo.value.jsBuffers else {}
    }

    /** The invariant the code keeps between calls. */
    ghost predicate Valid()
      reads this, StoredPromise()
    {
      && (state == Mapped || state == MappedAtCreation || state == MappingPending ==> mapInfo.Some?)
      && (state == Unmapped ==> mapInfo.None? && mapPromise.None?)
      && (state == Mapped || state == MappedAtCreation ==> mapPromise.None?)
      && (state == Destroyed && mapInfo.Some? ==> mapInfo.value.jsBuffers == [])
      && (state == MappingPending ==> mapInfo.value.mappedRanges == [] && mapInfo.value.jsBuffers == [])
      && (mapInfo.Some? ==> RegistryValid(mapInfo.value))
      && (mapPromise.Some? ==> mapPromise.value.state == Pending)
    }

    constructor (channel: Channel, device: Device, bufferId: nat, state: BufferState, size: nat,
                 mapInfo: Option<MapInfo>, initialLabel: string)
      requires state == Unmapped || state == MappedAtCreation
      requires mapInfo.Some? <==> state == MappedAtCreation
      requires mapInfo.Some? ==> RegistryValid(mapInfo.value)
      ensures Valid()
      ensures this.channel == channel && this.device == device && this.bufferId == bufferId && this.size == size
      ensures this.state == state && this.mapInfo == mapInfo && this.mapPromise == None && this.labelText == initialLabel
    {
      this.channel := channel;
      this.device := device;
      this.bufferId := bufferId;
      this.size := size;
      this.state := state;
      this.mapInfo := mapInfo;
      this.mapPromise := None;
      this.labelText := initialLabel;
    }

    /** The request unmap sends for the mapping `info`. */
    function UnmapRequest(info: MapInfo): Request
      requires info.mappingRange.start <= info.mappingRange.end
    {
      UnmapBuffer(bufferId, device.id, info.mapping, info.mapMode == Some(MAP_MODE_READ),
                  info.mappingRange.start, info.mappingRange.end - info.mappingRange.start)
    }

    method Unmap() returns (outcome: Outcome)
      requires Valid()
      modifies this, channel, Views(), StoredPromise()
      ensures Valid()
      ensures labelText == old(labelText) && channel.open == old(channel.open)
      // unmapped or destroyed: nothing happens
      ensures old(state) == Unmapped || old(state) == Destroyed ==>
        && outcome == Completed
        && state == old(state) && mapInfo == old(mapInfo) && mapPromise == old(mapPromise)
        && channel.sent == old(channel.sent)
        && old(Views()) == {}  // so no view is touched
      // mapped: the bytes go back to the GPU process and every view is detached
      ensures old(state) == Mapped || old(state) == MappedAtCreation ==>
        && outcome == Completed
        && state == Unmapped && mapInfo == None && mapPromise == None
        && channel.sent == old(channel.sent) + channel.Delivered(UnmapRequest(old(mapInfo).value))
        && forall b :: b in old(mapInfo).value.jsBuffers ==> b.detached
      // pending: the stored promise is rejected with OperationError
      ensures old(state) == MappingPending && old(mapPromise).Some? ==>
        && outcome == Completed
        && old(mapPromise).value.state == Rejected(Operation)
        && state == Unmapped && mapInfo == None && mapPromise == None
        && channel.sent == old(channel.sent)
      // pending with an empty promise slot (after an error response): the unwrap panics
      ensures old(state) == MappingPending && old(mapPromise).None? ==>
        && outcome.Panicked?
        && state == old(state) && mapInfo == old(mapInfo) && mapPromise == old(mapPromise)
        && channel.sent == old(channel.sent)
    {
      if state == Unmapped || state == Destroyed {
        return Completed;
      }
      if state == Mapped || state == MappedAtCreation {
        var info := mapInfo.value;
        var sentOk := channel.Send(UnmapRequest(info));
        var views := info.jsBuffers;
        for i := 0 to |views|
          invariant forall j :: 0 <= j < i ==> views[j].detached
          modifies set j | 0 <= j < |views| :: views[j]
        {
          views[i].Detach();
        }
      } else {
        if mapPromise.None? {
          return Panicked("called `Option::unwrap()` on a `None` value");
        }
        var promise := mapPromise.value;
        mapPromise := None;
        promise.Reject(Operation);
      }
      state := Unmapped;
      mapInfo := None;
      return Completed;
    }

    method Destroy()
      requires Valid()
      modifies this, channel, Views(), StoredPromise()
      ensures Valid()
      ensures labelText == old(labelText) && channel.open == old(channel.open)
      ensures state == Destroyed
      // a second destroy sends nothing and changes nothing
      ensures old(state) == Destroyed ==>
        && mapInfo == old(mapInfo) && mapPromise == old(mapPromise)
        && channel.sent == old(channel.sent)
        && old(Views()) == {}  // so no view is touched
      // a mapped buffer is unmapped first
      ensures old(state) == Mapped || old(state) == MappedAtCreation ==>
        && mapInfo == None && mapPromise == None
        && channel.sent == old(channel.sent) + channel.Delivered(UnmapRequest(old(mapInfo).value))
                           + channel.Delivered(DestroyBuffer(bufferId))
        && forall b :: b in old(mapInfo).value.jsBuffers ==> b.detached
      // an unmapped or pending buffer keeps its map info and its promise, which stays pending
      ensures old(state) == Unmapped || old(state) == MappingPending ==>
        && mapInfo == old(mapInfo) && mapPromise == old(mapPromise)
        && (mapPromise.Some? ==> mapPromise.value.state == Pending)
        && channel.sent == old(channel.sent) + channel.Delivered(DestroyBuffer(bufferId))
    {
      if state == Mapped || state == MappedAtCreation {
        var unmapped := Unmap();
      } else if state == Destroyed {
        return;
      }
      var sentOk := channel.Send(DestroyBuffer(bufferId));
      state := Destroyed;
    }

    /** Dropping the object destroys it, with every effect of destroy; destroy never fails, so nothing is logged. */
    method Drop()
      requires Valid()
      modifies this, channel, Views(), StoredPromise()
      ensures Valid()
      ensures labelText == old(labelText) && channel.open == old(channel.open)
      ensures state == Destroyed
      // dropping an already destroyed buffer sends nothing and changes nothing
      ensures old(state) == Destroyed ==>
        && mapInfo == old(mapInfo) && mapPromise == old(mapPromise)
        && channel.sent == old(channel.sent)
        && old(Views()) == {}  // so no view is touched
      // a mapped buffer is unmapped first
      ensures old(state) == Mapped || old(state) == MappedAtCreation ==>
        && mapInfo == None && mapPromise == None
        && channel.sent == old(channel.sent) + channel.Delivered(UnmapRequest(old(mapInfo).value))
                           + channel.Delivered(DestroyBuffer(bufferId))
        && forall b :: b in old(mapInfo).value.jsBuffers ==> b.detached
      // an unmapped or pending buffer keeps its map info and its promise, which stays pending
      ensures old(state) == Unmapped || old(state) == MappingPending ==>
        && mapInfo == old(mapInfo) && mapPromise == old(mapPromise)
        && (mapPromise.Some? ==> mapPromise.value.state == Pending)
        && channel.sent == old(channel.sent) + channel.Delivered(DestroyBuffer(bufferId))
    {
      Destroy();
    }

    method MapAsync(mode: nat, offset: nat, size: Option<nat>) returns (promise: Promise)
      requires Valid()
      modifies this, channel, device
      ensures Valid() && fresh(promise)
      ensures labelText == old(labelText) && channel.open == old(channel.open)
      ensures match MapAsyncCheck(old(state), this.size, mode, offset, size)
        case Reject(error, validationError) =>
          && promise.state == Rejected(error)
          && state == old(state) && mapInfo == old(mapInfo) && mapPromise == old(mapPromise)
          && channel.sent == old(channel.sent)
          && device.validationErrors == old(device.validationErrors)
                                        + (if validationError.Some? then [validationError.value] else [])
        case Proceed(hostMap, mapRange) =>
          && device.validationErrors == old(device.validationErrors)
          && if !channel.open then
               // the send failed
               && promise.state == Rejected(Operation)
               && state == old(state) && mapInfo == old(mapInfo) && mapPromise == old(mapPromise)
               && channel.sent == old(channel.sent)
             else
               && promise.state == Pending
               && state == MappingPending
               && mapInfo == Some(MapInfo([], mapRange, [], [], Some(mode)))
               && mapPromise == Some(promise)
               && channel.sent == old(channel.sent) + [BufferMapAsync(bufferId, device.id, hostMap, mapRange)]
    {
      promise := new Promise();
      var rangeSize: nat;
      if size.Some? {
        rangeSize := size.value;
      } else if offset >= this.size {
        promise.Reject(Operation);
        return;
      } else {
        rangeSize := this.size - offset;
      }
      if state != Unmapped {
        device.HandleValidationError(NOT_UNMAPPED_MESSAGE);
        promise.Reject(Abort);
        return;
      }
      var hostMap: HostMap;
      if mode == MAP_MODE_READ {
        hostMap := Read;
      } else if mode == MAP_MODE_WRITE {
        hostMap := Write;
      } else {
        device.HandleValidationError(INVALID_MAP_MODE_MESSAGE);
        promise.Reject(Abort);
        return;
      }
      var mapRange := Range(offset, offset + rangeSize);
      var sentOk := channel.Send(BufferMapAsync(bufferId, device.id, hostMap, mapRange));
      if !sentOk {
        promise.Reject(Operation);
        return;
      }
      state := MappingPending;
      mapInfo := Some(MapInfo([], mapRange, [], [], Some(mode)));
      mapPromise := Some(promise);
    }

    method GetMappedRange(offset: nat, size: Option<nat>) returns (r: MappedRangeResult)
      requires Valid()
      modifies this
      ensures Valid()
      ensures state == old(state) && mapPromise == old(mapPromise) && labelText == old(labelText)
      ensures MappedRangeDecision(old(state), old(mapInfo), offset, size, this.size) == RefuseRange ==>
        r == Failed(Operation) && mapInfo == old(mapInfo)
      ensures MappedRangeDecision(old(state), old(mapInfo), offset, size, this.size).PanicOnRange? ==>
        r == RangePanicked(MappedRangeDecision(old(state), old(mapInfo), offset, size, this.size).reason)
        && mapInfo == old(mapInfo)
      ensures MappedRangeDecision(old(state), old(mapInfo), offset, size, this.size).GrantRange? ==>
        var rangeSize := MappedRangeDecision(old(state), old(mapInfo), offset, size, this.size).rangeSize;
        && r.View? && fresh(r.buffer) && !r.buffer.detached
        && r.buffer.byteOffset == offset && r.buffer.byteLength == rangeSize
        && mapInfo == Some(old(mapInfo).value.(
             mappedRanges := old(mapInfo).value.mappedRanges + [Range(offset, offset + rangeSize)],
             jsBuffers := old(mapInfo).value.jsBuffers + [r.buffer]))
    {
      match MappedRangeDecision(state, mapInfo, offset, size, this.size) {
        case RefuseRange =>
          return Failed(Operation);
        case PanicOnRange(reason) =>
          return RangePanicked(reason);
        case GrantRange(_, rangeSize) =>
          var info := mapInfo.value;
          var mEnd := offset + rangeSize;
          var view := new ArrayBuffer(offset, rangeSize);
          RegisteringKeepsRegistryValid(info, Range(offset, mEnd), view);
          mapInfo := Some(info.(mappedRanges := info.mappedRanges + [Range(offset, mEnd)],
                                jsBuffers := info.jsBuffers + [view]));
          return View(view);
      }
    }

    /** The label getter: the text last set, or the one the buffer was created with. */
    function Label(): (l: string)
      reads this
      ensures l == labelText
    {
      labelText
    }

    method SetLabel(value: string)
      requires Valid()
      modifies this`labelText
      ensures Valid()
      ensures Label() == value
    {
      labelText := value;
    }

    /** The listener run when the GPU process answers the map request made with `promise`. */
    method HandleResponse(response: Option<ResponseResult>, promise: Promise) returns (outcome: Outcome)
      requires Valid()
      modifies this, channel, promise
      ensures Valid()
      ensures labelText == old(labelText) && channel.open == old(channel.open)
      ensures ResponsePanics(response, old(mapInfo)) ==>
        && outcome.Panicked?
        && state == old(state) && mapInfo == old(mapInfo) && mapPromise == old(mapPromise)
        && channel.sent == old(channel.sent) && promise.state == old(promise.state)
      // both answers empty the promise slot and report completion
      ensures !ResponsePanics(response, old(mapInfo)) ==>
        && outcome == Completed
        && mapPromise == None
        && channel.sent == old(channel.sent) + channel.Delivered(BufferMapComplete(bufferId))
      // bytes: they become the mapping, the promise resolves and the buffer is mapped
      ensures !ResponsePanics(response, old(mapInfo)) && response.value.Ok? ==>
        && state == Mapped
        && mapInfo == Some(old(mapInfo).value.(mapping := response.value.response.bytes))
        && promise.state == (if old(promise.state) == Pending then Resolved else old(promise.state))
      // an error: the promise is rejected with AbortError and the state stays
      ensures response.Some? && response.value.Err? ==>
        && state == old(state) && mapInfo == old(mapInfo)
        && promise.state == (if old(promise.state) == Pending then Rejected(Abort) else old(promise.state))
    {
      if response.None? {
        return Panicked("Failed to get a response for BufferMapAsync");
      }
      match response.value {
        case Ok(answer) =>
          if answer.OtherResponse? {
            return Panicked("GPUBuffer received wrong WebGPUResponse");
          }
          if mapInfo.None? {
            return Panicked("called `Option::unwrap()` on a `None` value");
          }
          mapInfo := Some(mapInfo.value.(mapping := answer.bytes));
          promise.Resolve();
          state := Mapped;
        case Err(_) =>
          promise.Reject(Abort);
      }
      mapPromise := None;
      var sentOk := channel.Send(BufferMapComplete(bufferId));
      return Completed;
    }
  }

  lemma {:induction false} AppendKeepsPairwiseDisjoint(rs: seq<Range>, r: Range)
    requires PairwiseDisjoint(rs)
    requires forall x :: x in rs ==> Disjoint(x, r)
    ensures PairwiseDisjoint(rs + [r])
  {
    forall i, j | 0 <= i < j < |rs + [r]|
      ensures Disjoint((rs + [r])[i], (rs + [r])[j])
    {
      if j == |rs| {
        assert (rs + [r])[i] == rs[i];
      }
    }
  }

  /** Recording a view of a free part of the mapping range keeps the registry consistent. */
  lemma RegisteringKeepsRegistryValid(info: MapInfo, range: Range, view: ArrayBuffer)
    requires RegistryValid(info)
    requires info.mappingRange.start <= range.start <= range.end <= info.mappingRange.end
    requires view.byteOffset == range.start && view.byteLength == range.end - range.start
    requires forall x :: x in info.mappedRanges ==> Disjoint(x, range)
    ensures RegistryValid(info.(mappedRanges := info.mappedRanges + [range], jsBuffers := info.jsBuffers + [view]))
  {
    AppendKeepsPairwiseDisjoint(info.mappedRanges, range);
    var next := info.(mappedRanges := info.mappedRanges + [range], jsBuffers := info.jsBuffers + [view]);
    forall i | 0 <= i < |next.mappedRanges|
      ensures && next.mappingRange.start <= next.mappedRanges[i].start <= next.mappedRanges[i].end <= next.mappingRange.end
              && next.jsBuffers[i].byteOffset == next.mappedRanges[i].start
              && next.jsBuffers[i].byteLength == next.mappedRanges[i].end - next.mappedRanges[i].start
    {
      if i < |info.mappedRanges| {
        assert next.mappedRanges[i] == info.mappedRanges[i] && next.jsBuffers[i] == info.jsBuffers[i];
      }
    }
  }

  /** For non-empty intervals the overlap test means exactly "no byte in common". */
  lemma DisjointMeansNoSharedByte(a: Range, b: Range)
    requires a.start < a.end && b.start < b.end
    ensures Disjoint(a, b) <==> forall x :: !(InRange(x, a) && InRange(x, b))
  {
    if !Disjoint(a, b) {
      var x := if a.start < b.start then b.start else a.start;
      assert InRange(x, a) && InRange(x, b);
    }
  }

  /** Views recorded in a valid registry never share a byte of the mapping. */
  lemma RegisteredViewsShareNoByte(info: MapInfo, i: nat, j: nat, x: int)
    requires RegistryValid(info)
    requires i < |info.mappedRanges| && j < |info.mappedRanges| && i != j
    ensures !(InRange(x, info.mappedRanges[i]) && InRange(x, info.mappedRanges[j]))
  {
    if i < j {
      assert Disjoint(info.mappedRanges[i], info.mappedRanges[j]);
    } else {
      assert Disjoint(info.mappedRanges[j], info.mappedRanges[i]);
    }
  }

  /** The overlap test refuses an empty view strictly inside a recorded range, although it would share no byte. */
  lemma EmptyViewInsideRecordedRangeIsRefused(recorded: Range, offset: nat)
    requires recorded.start < offset < recorded.end
    ensures !Disjoint(recorded, Range(offset, offset))
    ensures forall x :: !(InRange(x, recorded) && InRange(x, Range(offset, offset)))
  {
  }

  /** A fresh 64-byte buffer mapped at creation, with no view handed out yet. */
  method NewBufferMappedAtCreation() returns (buffer: GPUBuffer, info: MapInfo)
    ensures fresh(buffer) && fresh(buffer.channel) && buffer.Valid()
    ensures buffer.state == MappedAtCreation && buffer.size == 64 && buffer.mapInfo == Some(info)
    ensures info == MapInfo(seq(64, _ => 0), Range(0, 64), [], [], None)
  {
    var channel := new Channel(true);
    var device := new Device(0);
    info := MapInfo(seq(64, _ => 0), Range(0, 64), [], [], None);
    buffer := new GPUBuffer(channel, device, 1, MappedAtCreation, 64, Some(info), "");
  }

  /** On a 64-byte buffer mapped at creation a view of bytes 0..32 is granted, and a view of 16..32 overlapping it is refused. */
  method ScenarioOverlappingViews() returns (first: MappedRangeResult, second: MappedRangeResult)
    ensures first.View? && first.buffer.byteOffset == 0 && first.buffer.byteLength == 32
    ensures second == Failed(Operation)
  {
    var buffer, info := NewBufferMappedAtCreation();
    assert RangeIsValid(MappedAtCreation, info, 0, 32);
    assert MappedRangeDecision(MappedAtCreation, Some(info), 0, Some(32), 64) == GrantRange(0, 32);
    first := buffer.GetMappedRange(0, Some(32));
    var viewed := info.(mappedRanges := [Range(0, 32)], jsBuffers := [first.buffer]);
    assert buffer.mapInfo.value.mappedRanges == [Range(0, 32)];
    assert buffer.mapInfo.value.jsBuffers == [first.buffer];
    assert buffer.mapInfo == Some(viewed);
    assert Range(0, 32) in viewed.mappedRanges && !Disjoint(Range(0, 32), Range(16, 32));
    assert MappedRangeDecision(MappedAtCreation, Some(viewed), 16, Some(16), 64) == RefuseRange;
    second := buffer.GetMappedRange(16, Some(16));
  }

  /** Unmapping a buffer detaches the view handed out for it. */
  method ScenarioUnmapDetachesView() returns (view: MappedRangeResult, detached: bool)
    ensures view.View? && view.buffer.byteOffset == 0 && view.buffer.byteLength == 64
    ensures detached
  {
    var buffer, info := NewBufferMappedAtCreation();
    assert RangeIsValid(MappedAtCreation, info, 0, 64);
    assert MappedRangeDecision(MappedAtCreation, Some(info), 0, None, 64) == GrantRange(0, 64);
    view := buffer.GetMappedRange(0, None);
    assert buffer.mapInfo.value.jsBuffers == [view.buffer];
    var unmapped := buffer.Unmap();
    detached := view.buffer.detached;
  }

  /** mapAsync on a 10-byte buffer at offset 12 with no size: OperationError at once, nothing sent. */
  method ScenarioOffsetPastEnd() returns (promiseState: PromiseState, state: BufferState, sent: seq<Request>)
    ensures promiseState == Rejected(Operation)
    ensures state == Unmapped
    ensures sent == []
  {
    var channel := new Channel(true);
    var device := new Device(0);
    var buffer := new GPUBuffer(channel, device, 1, Unmapped, 10, None, "");
    var promise := buffer.MapAsync(MAP_MODE_READ, 12, None);
    promiseState, state, sent := promise.state, buffer.state, channel.sent;
  }

  /** After an error answer the buffer stays MappingPending with an empty promise slot: a later unmap panics. */
  method ScenarioFailedMapThenUnmap() returns (promiseState: PromiseState, stateAfterError: BufferState, unmapped: Outcome)
    ensures promiseState == Rejected(Abort)
    ensures stateAfterError == MappingPending
    ensures unmapped.Panicked?
  {
    var channel := new Channel(true);
    var device := new Device(0);
    var buffer := new GPUBuffer(channel, device, 1, Unmapped, 16, None, "");
    var promise := buffer.MapAsync(MAP_MODE_WRITE, 0, Some(16));
    var answered := buffer.HandleResponse(Some(Err("device lost")), promise);
    promiseState, stateAfterError := promise.state, buffer.state;
    unmapped := buffer.Unmap();
  }

  /** destroy while a map is pending leaves the promise pending; a late successful answer then maps the destroyed buffer. */
  method ScenarioDestroyWhilePending() returns (afterDestroy: PromiseState, afterAnswer: PromiseState, finalState: BufferState)
    ensures afterDestroy == Pending
    ensures afterAnswer == Resolved
    ensures finalState == Mapped
  {
    var channel := new Channel(true);
    var device := new Device(0);
    var buffer := new GPUBuffer(channel, device, 1, Unmapped, 16, None, "");
    var promise := buffer.MapAsync(MAP_MODE_READ, 0, None);
    buffer.Destroy();
    afterDestroy := promise.state;
    var bytes: seq<bv8> := seq(16, _ => 0);
    var answered := buffer.HandleResponse(Some(Ok(BufferMapAsyncBytes(bytes))), promise);
    afterAnswer, finalState := promise.state, buffer.state;
  }
}
