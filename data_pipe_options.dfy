/**
 * Validation of the options a data pipe is created with (`DataPipe::ValidateCreateOptions`):
 * the size of one element and the capacity in bytes.
 */
module DataPipeOptions {
  import opened Wrappers
  import opened MojoResults
  import opened Alignment

  datatype CreateOptions = CreateOptions(elementNumBytes: nat, capacityNumBytes: nat)

  /** Validated options: positive element size, positive capacity holding whole elements. */
  predicate IsValid(o: CreateOptions) {
    o.elementNumBytes > 0 && o.capacityNumBytes > 0 && o.capacityNumBytes % o.elementNumBytes == 0
  }

  /**
   * The capacity used when none is requested: the configured default rounded down to a
   * whole number of elements, but never less than one element.
   */
  function DefaultCapacity(elementNumBytes: nat, configuredDefault: nat): (c: nat)
    requires elementNumBytes > 0
    ensures c % elementNumBytes == 0
    ensures c >= elementNumBytes
    ensures c <= configuredDefault || c == elementNumBytes
    ensures configuredDefault - c < elementNumBytes
  {
    RoundDownAligned(configuredDefault, elementNumBytes);
    MultipleIsAligned(1, elementNumBytes);
    Max(configuredDefault - configuredDefault % elementNumBytes, elementNumBytes)
  }

  /**
   * `requested == None` stands for a null options pointer: the defaults (one-byte elements,
   * the configured default capacity). A zero element size is refused; a zero capacity gets
   * the default; any other capacity must hold whole elements and is kept as it is.
   */
  function ValidateCreateOptions(requested: Option<CreateOptions>, configuredDefault: nat): (r: Result<CreateOptions, MojoResult>)
    requires configuredDefault > 0
    ensures r.Success? ==> IsValid(r.value)
    ensures r.Failure? ==> r.error == InvalidArgument
    ensures requested.None? ==> r == Success(CreateOptions(1, configuredDefault))
    ensures requested.Some? ==>
      (r.Success? <==> requested.value.elementNumBytes > 0 && requested.value.capacityNumBytes % requested.value.elementNumBytes == 0)
    ensures requested.Some? && r.Success? ==> r.value.elementNumBytes == requested.value.elementNumBytes
    ensures requested.Some? && r.Success? && requested.value.capacityNumBytes > 0 ==> r.value == requested.value
    ensures requested.Some? && requested.value.elementNumBytes > 0 && requested.value.capacityNumBytes == 0 ==>
      r == Success(CreateOptions(requested.value.elementNumBytes,
                                 DefaultCapacity(requested.value.elementNumBytes, configuredDefault)))
  {
    match requested
    case None => Success(CreateOptions(1, configuredDefault))
    case Some(o) => ValidateRequested(o, configuredDefault)
  }

  /** `ValidateCreateOptions` for options that were supplied. */
  function ValidateRequested(o: CreateOptions, configuredDefault: nat): (r: Result<CreateOptions, MojoResult>)
    ensures r.Success? ==> IsValid(r.value) && r.value.elementNumBytes == o.elementNumBytes
    ensures r.Failure? ==> r.error == InvalidArgument
    ensures r.Success? <==> o.elementNumBytes > 0 && o.capacityNumBytes % o.elementNumBytes == 0
    ensures r.Success? && o.capacityNumBytes > 0 ==> r.value == o
    ensures o.elementNumBytes > 0 && o.capacityNumBytes == 0 ==>
      r == Success(CreateOptions(o.elementNumBytes, DefaultCapacity(o.elementNumBytes, configuredDefault)))
  {
    if o.elementNumBytes == 0 then Failure(InvalidArgument)
    else if o.capacityNumBytes == 0 then
      Success(CreateOptions(o.elementNumBytes, DefaultCapacity(o.elementNumBytes, configuredDefault)))
    else if o.capacityNumBytes % o.elementNumBytes != 0 then Failure(InvalidArgument)
    else Success(o)
  }
}
