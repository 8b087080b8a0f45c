/** The pure parts of the Android characteristic (src/android/characteristic.rs):
    the property-flag conversion, the notification bit of the Client
    Characteristic Configuration descriptor, and the maximum write length. */
module AndroidCharacteristic {
  import opened Wrappers
  import opened BluetoothTypes

  /** The eight property flags the platform reports for a characteristic. */
  datatype PlatformProperties = PlatformProperties(
    broadcast: bool,
    read: bool,
    writeNoResponse: bool,
    write: bool,
    notify: bool,
    indicate: bool,
    signedWrite: bool,
    extendedProps: bool)

  /** The crate's characteristic properties. */
  datatype CharacteristicProperties = CharacteristicProperties(
    broadcast: bool,
    read: bool,
    writeWithoutResponse: bool,
    write: bool,
    notify: bool,
    indicate: bool,
    authenticatedSignedWrites: bool,
    extendedProperties: bool,
    reliableWrite: bool,
    writableAuxiliaries: bool)

  /** `From<CharacteristicProperties>`: the eight flags are copied, and the
      two extended properties the platform does not report are false. */
  function PropertiesFrom(p: PlatformProperties): (r: CharacteristicProperties)
    ensures !r.reliableWrite && !r.writableAuxiliaries
  {
    CharacteristicProperties(
      p.broadcast, p.read, p.writeNoResponse, p.write, p.notify, p.indicate,
      p.signedWrite, p.extendedProps, false, false)
  }

  /** The flags of the crate's properties that the platform also has. */
  function PlatformFlags(c: CharacteristicProperties): PlatformProperties
  {
    PlatformProperties(
      c.broadcast, c.read, c.writeWithoutResponse, c.write, c.notify, c.indicate,
      c.authenticatedSignedWrites, c.extendedProperties)
  }

  /** No platform flag is lost, and every crate value without the two
      unreported extended properties is reached by exactly one platform value. */
  lemma PropertiesRoundTrip(p: PlatformProperties, c: CharacteristicProperties)
    ensures PlatformFlags(PropertiesFrom(p)) == p
    ensures PropertiesFrom(PlatformFlags(c)) == c <==> !c.reliableWrite && !c.writableAuxiliaries
  {
  }

  /** The renamed flags: write-no-response, signed write and extended properties. */
  lemma RenamedFlags(p: PlatformProperties)
    ensures PropertiesFrom(p).writeWithoutResponse == p.writeNoResponse
    ensures PropertiesFrom(p).authenticatedSignedWrites == p.signedWrite
    ensures PropertiesFrom(p).extendedProperties == p.extendedProps
  {
  }

  // ---------------------------------------------------------------------
  // Client Characteristic Configuration

  /** The 16-bit uuid 0x2902 in the Bluetooth base uuid. */
  const CccDescriptor: Uuid := 0x0000_2902_0000_1000_8000_0080_5f9b_34fb

  /** A Client Characteristic Configuration value (Bluetooth Core
      Specification, Vol 3, Part G, section 3.3.3.3): bit 0 enables
      notifications, bit 1 indications, the other bits are reserved. */
  datatype CccValue = CccValue(notification: bool, indication: bool)

  /** The two-byte little-endian encoding of a configuration value. */
  function EncodeCcc(v: CccValue): (bytes: seq<byte>)
    ensures |bytes| == 2 && bytes[1] == 0
  {
    [(if v.notification then 1 else 0) + (if v.indication then 2 else 0), 0]
  }

  /** `byte & 0x01 != 0`. */
  predicate LowBit(b: byte)
  {
    (b as bv8) & 1 != 0
  }

  /** What looking a descriptor up by uuid yields: an error, no such
      descriptor, or the descriptor together with what reading it yields. */
  type DescriptorLookup<E> = Uuid -> Result<Option<Result<seq<byte>, E>>, E>

  /** `is_notifying`: reads the configuration descriptor and tests its
      notification bit. A missing descriptor (`unwrap`) and a value that is not
      two bytes long (`assert_eq!`) panic. */
  function IsNotifying<E>(lookup: DescriptorLookup<E>): (r: Result<bool, E>)
    requires lookup(CccDescriptor) != Ok(None)
    requires lookup(CccDescriptor).Ok? && lookup(CccDescriptor).value.value.Ok?
             ==> |lookup(CccDescriptor).value.value.value| == 2
    ensures lookup(CccDescriptor).Err? ==> r == Err(lookup(CccDescriptor).error)
    ensures lookup(CccDescriptor).Ok? && lookup(CccDescriptor).value.value.Err?
            ==> r == Err(lookup(CccDescriptor).value.value.error)
    ensures lookup(CccDescriptor).Ok? && lookup(CccDescriptor).value.value.Ok?
            ==> r == Ok(lookup(CccDescriptor).value.value.value[0] % 2 == 1)
  {
    match lookup(CccDescriptor)
    case Err(e) => Err(e)
    case Ok(Some(Err(e))) => Err(e)
    case Ok(Some(Ok(content))) => Ok(LowBit(content[0]))
  }

  /** A lookup that finds the configuration descriptor holding `content`. */
  function Holding<E>(content: seq<byte>): DescriptorLookup<E>
  {
    u => if u == CccDescriptor then Ok(Some(Ok(content))) else Ok(None)
  }

  /** The answer is the notification flag of the stored configuration,
      whatever the indication flag. */
  lemma IsNotifyingDecodesCcc<E>(v: CccValue)
    ensures IsNotifying(Holding<E>(EncodeCcc(v))) == Ok(v.notification)
  {
  }

  /** Only the first byte's low bit matters: reserved bits and the second byte are ignored. */
  lemma IsNotifyingReadsOnlyBitZero<E>(content: seq<byte>)
    requires |content| == 2
    ensures IsNotifying(Holding<E>(content)) == Ok(content[0] % 2 == 1)
  {
  }

  /** Errors of the lookup and of the read are passed on. */
  lemma IsNotifyingPassesErrors<E>(lookup: DescriptorLookup<E>, e: E)
    requires lookup(CccDescriptor) == Err(e) || lookup(CccDescriptor) == Ok(Some(Err(e)))
    ensures IsNotifying(lookup) == Err(e)
  {
  }

  // ---------------------------------------------------------------------
  // Maximum write length

  /** The pointer width of the Android target: 32-bit or 64-bit ABIs. */
  datatype PointerWidth = Bits32 | Bits64

  /** The number of `usize` values on a target. */
  function UsizeLimit(width: PointerWidth): nat
  {
    match width
    case Bits32 => 0x1_0000_0000
    case Bits64 => 0x1_0000_0000_0000_0000
  }

  predicate IsUsize(width: PointerWidth, n: int)
  {
    0 <= n < UsizeLimit(width)
  }

  /** `max_write_len` and `max_write_len_async`: the platform gives no limit,
      so the answer is `usize::MAX`, a `usize` no other `usize` exceeds. */
  function MaxWriteLen<E>(width: PointerWidth): (r: Result<nat, E>)
    ensures r.Ok? && IsUsize(width, r.value)
    ensures forall n :: IsUsize(width, n) ==> n <= r.value
  {
    Ok(UsizeLimit(width) - 1)
  }
}
