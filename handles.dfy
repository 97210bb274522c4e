/**
  Remote handles and the objects that own them: `XrtHandle`, `XrtData` and
  `XrtComputation`.  A handle is an integer id of a resource that lives on a
  remote worker.  It is held through a `std::shared_ptr`, and when the last
  owner goes away the handle's destructor runs its releaser closure once.
  The closure then asks the client to release the remote resource.
 */
module Handles {
  import opened Bytes

  /** The C++ `int64_t` that holds a handle id. */
  newtype Int64 = x: int | -0x8000_0000_0000_0000 <= x < 0x8000_0000_0000_0000

  /** A handle on a device, as queued for release (`DeviceHandle`). */
  datatype DeviceHandle = DeviceHandle(device: ByteString, handle: Int64)

  /** Data handles and compiled-program handles are released through separate
      entry points of the client. */
  datatype HandleKind = DataHandle | CompileHandle

  /** One call made by a releaser closure to the client. */
  datatype ReleaseRequest = ReleaseRequest(kind: HandleKind, target: DeviceHandle)

  /** The client as seen by releaser closures (the captured `self`).  Only the
      calls to its release entry points are modelled, as a list in call order. */
  class XrtComputationClient {
    var releaseRequests: seq<ReleaseRequest>

    constructor ()
      ensures releaseRequests == []
    {
      releaseRequests := [];
    }
  }

  /** A releaser closure: which client it calls and with what request. */
  datatype Releaser = Releaser(client: XrtComputationClient, request: ReleaseRequest)

  /** Opaque stand-ins for the XLA types the handle owners carry. */
  datatype Shape = Shape(dimensions: seq<int>)
  datatype ProgramShape = ProgramShape(parameters: seq<Shape>, result: Shape)
  datatype XlaComputation = XlaComputation(proto: ByteString)

  /** `XrtHandle` together with the `std::shared_ptr`s that own it.  `useCount`
      is the shared pointer's use count.  `owners` holds the objects that hold
      one of those pointers, and `releaserRuns` counts how often the destructor
      has called the releaser. */
  class XrtHandle {
    const handle: Int64
    const releaser: Releaser
    var useCount: nat
    ghost var owners: set<object>
    ghost var releaserRuns: nat

    /** Every live pointer belongs to a distinct owner.  While there is an owner
        the releaser has not run; once the last owner is gone it has run exactly
        once. */
    ghost predicate Valid()
      reads this
    {
      && useCount == |owners|
      && releaserRuns == if useCount > 0 then 0 else 1
    }

    /** `std::make_shared<XrtHandle>(handle, releaser)`, held by `owner`: the id
        is fixed from here on. */
    constructor (handle: Int64, releaser: Releaser, owner: object)
      ensures Valid()
      ensures this.handle == handle && this.releaser == releaser
      ensures owners == {owner} && useCount == 1 && releaserRuns == 0
    {
      this.handle := handle;
      this.releaser := releaser;
      useCount := 1;
      owners := {owner};
      releaserRuns := 0;
    }

    /** Copying a live shared pointer into a new owner adds that owner and
        releases nothing. */
    method Share(owner: object)
      requires Valid() && useCount > 0 && owner !in owners
      modifies this
      ensures Valid()
      ensures owners == old(owners) + {owner} && useCount == old(useCount) + 1
      ensures releaserRuns == 0
    {
      useCount := useCount + 1;
      owners := owners + {owner};
    }

    /** `owner` destroys its shared pointer.  When it was the last one,
        `~XrtHandle` runs the releaser, and exactly one request reaches the
        client. */
    method Drop(owner: object)
      requires Valid() && owner in owners
      modifies this, releaser.client
      ensures Valid()
      ensures owners == old(owners) - {owner} && useCount == old(useCount) - 1
      ensures releaserRuns == (if useCount == 0 then 1 else 0)
      ensures releaser.client.releaseRequests ==
              old(releaser.client.releaseRequests) + (if useCount == 0 then [releaser.request] else [])
    {
      useCount := useCount - 1;
      owners := owners - {owner};
      if useCount == 0 {
        releaser.client.releaseRequests := releaser.client.releaseRequests + [releaser.request];
        releaserRuns := releaserRuns + 1;
      }
    }
  }

  /** `XrtData`: device data that may or may not yet hold a handle. */
  class XrtData {
    const device: ByteString
    const shape: Shape
    var handlePtr: XrtHandle?

    /** A held handle counts this data among its owners, and its releaser asks
        for a data release of this device and the handle's id. */
    ghost predicate Valid()
      reads this, handlePtr
    {
      handlePtr != null ==>
        && handlePtr.Valid() && this in handlePtr.owners
        && handlePtr.releaser.request == ReleaseRequest(DataHandle, DeviceHandle(device, handlePtr.handle))
    }

    /** `XrtData(device, device_shape)`: a placeholder without a value. */
    constructor Placeholder(device: ByteString, shape: Shape)
      ensures Valid()
      ensures this.device == device && this.shape == shape
      ensures !HasValue()
    {
      this.device := device;
      this.shape := shape;
      handlePtr := null;
    }

    /** `XrtData(device, device_shape, handle)`: data that alone owns a fresh
        handle whose releaser asks the client to release `(device, handle)` as
        data. */
    constructor (client: XrtComputationClient, device: ByteString, shape: Shape, handle: Int64)
      ensures Valid()
      ensures this.device == device && this.shape == shape
      ensures HasValue() && GetHandle() == handle
      ensures fresh(handlePtr) && handlePtr.owners == {this} && handlePtr.releaser.client == client
    {
      this.device := device;
      this.shape := shape;
      new;
      handlePtr := new XrtHandle(handle, Releaser(client, ReleaseRequest(DataHandle, DeviceHandle(device, handle))), this);
    }

    /** `HasValue()`: the data holds a handle.  Data with a value is a live
        owner of that handle. */
    function HasValue(): (r: bool)
      reads this, handlePtr
      ensures Valid() && r ==> handlePtr != null && this in handlePtr.owners && handlePtr.useCount > 0
    {
      handlePtr != null
    }

    /** `get_handle()`: the id of the held handle, which is also the id the
        handle's release will be addressed to. */
    function GetHandle(): (r: Int64)
      reads this, handlePtr
      requires Valid() && HasValue()
      ensures handlePtr.releaser.request == ReleaseRequest(DataHandle, DeviceHandle(device, r))
    {
      handlePtr.handle
    }

    /** The implicit destructor.  If the data holds a handle, it gives up its
        share of it.  When that was the last share, exactly one data release
        reaches the client. */
    method Destroy()
      requires Valid()
      modifies this, if handlePtr != null then {handlePtr, handlePtr.releaser.client} else {}
      ensures Valid() && !HasValue()
      ensures old(handlePtr) != null ==>
                var h := old(handlePtr);
                && h.Valid() && h.owners == old(h.owners) - {this}
                && h.releaser.client.releaseRequests ==
                   old(h.releaser.client.releaseRequests)
                   + (if h.useCount == 0 then [ReleaseRequest(DataHandle, DeviceHandle(device, h.handle))] else [])
    {
      if handlePtr != null {
        handlePtr.Drop(this);
        handlePtr := null;
      }
    }
  }

  /** `XrtComputation`: a compiled program and the handle of its compilation.
      The compilation device is not stored as a field in the source; it lives
      only in the releaser closure, and `compilationDevice` records it here.
      `handlePtr` is set by the constructor and becomes null when the
      computation is destroyed. */
  class XrtComputation {
    const computation: XlaComputation
    const programShape: ProgramShape
    const devices: seq<ByteString>
    ghost const compilationDevice: ByteString
    var handlePtr: XrtHandle?

    /** A live computation owns its handle.  The releaser targets the
        compilation device and the computation's own handle id, as a
        compiled-program release. */
    ghost predicate Valid()
      reads this, handlePtr
    {
      handlePtr != null ==>
        && handlePtr.Valid() && this in handlePtr.owners
        && handlePtr.releaser.request == ReleaseRequest(CompileHandle, DeviceHandle(compilationDevice, handlePtr.handle))
    }

    constructor (client: XrtComputationClient, computation: XlaComputation, programShape: ProgramShape,
                 devices: seq<ByteString>, handle: Int64, compilationDevice: ByteString)
      ensures Valid()
      ensures this.computation == computation && this.programShape == programShape && this.devices == devices
      ensures this.compilationDevice == compilationDevice
      ensures handlePtr != null && GetHandle() == handle
      ensures fresh(handlePtr) && handlePtr.owners == {this} && handlePtr.releaser.client == client
    {
      this.computation := computation;
      this.programShape := programShape;
      this.devices := devices;
      this.compilationDevice := compilationDevice;
      new;
      handlePtr := new XrtHandle(handle, Releaser(client, ReleaseRequest(CompileHandle, DeviceHandle(compilationDevice, handle))), this);
    }

    /** `get_handle()`: the id of the compilation handle, which is also the id
        its release will be addressed to, on the compilation device. */
    function GetHandle(): (r: Int64)
      reads this, handlePtr
      requires Valid() && handlePtr != null
      ensures handlePtr.releaser.request == ReleaseRequest(CompileHandle, DeviceHandle(compilationDevice, r))
    {
      handlePtr.handle
    }

    /** The implicit destructor: the computation gives up its share of the
        handle.  When that was the last share, the client receives exactly one
        compiled-program release for `(compilationDevice, GetHandle())`. */
    method Destroy()
      requires Valid() && handlePtr != null
      modifies this, handlePtr, handlePtr.releaser.client
      ensures Valid() && handlePtr == null
      ensures var h := old(handlePtr);
              && h.Valid() && h.owners == old(h.owners) - {this}
              && h.releaser.client.releaseRequests ==
                 old(h.releaser.client.releaseRequests)
                 + (if h.useCount == 0
                    then [ReleaseRequest(CompileHandle, DeviceHandle(compilationDevice, old(GetHandle())))]
                    else [])
    {
      handlePtr.Drop(this);
      handlePtr := null;
    }
  }

  /** Two owners share one data handle, as when the public `handle_ptr` of one
      `XrtData` is copied into another.  Destroying the first owner releases
      nothing.  Destroying the second owner then requests exactly one data
      release. */
  method SharedDataReleasedOnce(device: ByteString, shape: Shape, handle: Int64)
    returns (afterFirst: seq<ReleaseRequest>, afterLast: seq<ReleaseRequest>)
    ensures afterFirst == []
    ensures afterLast == [ReleaseRequest(DataHandle, DeviceHandle(device, handle))]
  {
    var client := new XrtComputationClient();
    var first := new XrtData(client, device, shape, handle);
    var second := new XrtData.Placeholder(device, shape);
    first.handlePtr.Share(second);
    second.handlePtr := first.handlePtr;
    first.Destroy();
    afterFirst := client.releaseRequests;
    second.Destroy();
    afterLast := client.releaseRequests;
  }
}
