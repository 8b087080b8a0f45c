/** The older GATT error conversion (src/android.rs), written against a
    platform `GattError` that has neither status codes nor the
    not-executed and not-connected variants. */
module AndroidLegacy {
  import opened Wrappers
  import opened AndroidErrors

  /** The older platform GATT error: the first fourteen variants of `GattError`. */
  datatype LegacyGattError =
    | LegacyReadNotPermitted
    | LegacyWriteNotPermitted
    | LegacyInsufficientAuthentication
    | LegacyInsufficientEncryption
    | LegacyInsufficientAuthorization
    | LegacyRequestNotSupported
    | LegacyInvalidOffset
    | LegacyInvalidAttributeLength
    | LegacyConnectionCongested
    | LegacyConnectionTimeout
    | LegacyFailure
    | LegacyUnknownError(code: int)
    | LegacyJavaError(java: JavaError)
    | LegacyWritingToCCCDescriptor

  /** The kind the older `From<GattError>` assigns to each GATT error. */
  function LegacyGattErrorKind(err: LegacyGattError): ErrorKind
  {
    match err
    case LegacyReadNotPermitted | LegacyWriteNotPermitted | LegacyInsufficientAuthentication
         | LegacyInsufficientEncryption | LegacyInsufficientAuthorization => NotAuthorized
    case LegacyRequestNotSupported => NotSupported
    case LegacyInvalidOffset | LegacyInvalidAttributeLength => InvalidParameter
    case LegacyConnectionCongested | LegacyConnectionTimeout => Timeout
    case LegacyFailure => Other
    case LegacyUnknownError(_) | LegacyJavaError(_) | LegacyWritingToCCCDescriptor => Internal
  }

  /** The older `From<GattError> for crate::Error`. */
  function FromLegacyGattError(err: LegacyGattError): (r: Error<LegacyGattError>)
    ensures r.source == Some(err) && r.message == DisplayOf(err)
    // the older platform cannot report an unavailable adapter or a lost connection
    ensures r.kind in {NotAuthorized, NotSupported, InvalidParameter, Timeout, Other, Internal}
  {
    Error(LegacyGattErrorKind(err), Some(err), DisplayOf(err))
  }

  /** The older table, kind by kind. */
  lemma LegacyGattErrorCases(err: LegacyGattError)
    ensures FromLegacyGattError(err).kind == NotAuthorized
            <==> err in {LegacyReadNotPermitted, LegacyWriteNotPermitted, LegacyInsufficientAuthentication,
                         LegacyInsufficientEncryption, LegacyInsufficientAuthorization}
    ensures FromLegacyGattError(err).kind == NotSupported <==> err == LegacyRequestNotSupported
    ensures FromLegacyGattError(err).kind == InvalidParameter
            <==> err in {LegacyInvalidOffset, LegacyInvalidAttributeLength}
    ensures FromLegacyGattError(err).kind == Timeout <==> err in {LegacyConnectionCongested, LegacyConnectionTimeout}
    ensures FromLegacyGattError(err).kind == Other <==> err == LegacyFailure
    ensures FromLegacyGattError(err).kind == Internal
            <==> err.LegacyUnknownError? || err.LegacyJavaError? || err == LegacyWritingToCCCDescriptor
  {
  }

  /** Each older variant is the variant of the same name in the newer enum. */
  function Upgrade(err: LegacyGattError): (r: GattError)
    ensures !r.StatusCode? && r != NotExecuted && r != GattNotConnected
  {
    match err
    case LegacyReadNotPermitted => GattReadNotPermitted
    case LegacyWriteNotPermitted => GattWriteNotPermitted
    case LegacyInsufficientAuthentication => GattInsufficientAuthentication
    case LegacyInsufficientEncryption => GattInsufficientEncryption
    case LegacyInsufficientAuthorization => GattInsufficientAuthorization
    case LegacyRequestNotSupported => GattRequestNotSupported
    case LegacyInvalidOffset => GattInvalidOffset
    case LegacyInvalidAttributeLength => GattInvalidAttributeLength
    case LegacyConnectionCongested => GattConnectionCongested
    case LegacyConnectionTimeout => GattConnectionTimeout
    case LegacyFailure => GattFailure
    case LegacyUnknownError(code) => UnknownError(code)
    case LegacyJavaError(java) => GattJavaError(java)
    case LegacyWritingToCCCDescriptor => WritingToCCCDescriptor
  }

  /** The older variants are exactly the newer ones other than the status
      codes, `NotExecuted` and `NotConnected`. */
  function Downgrade(err: GattError): (r: Option<LegacyGattError>)
    ensures r.None? <==> err.StatusCode? || err == NotExecuted || err == GattNotConnected
  {
    match err
    case GattReadNotPermitted => Some(LegacyReadNotPermitted)
    case GattWriteNotPermitted => Some(LegacyWriteNotPermitted)
    case GattInsufficientAuthentication => Some(LegacyInsufficientAuthentication)
    case GattInsufficientEncryption => Some(LegacyInsufficientEncryption)
    case GattInsufficientAuthorization => Some(LegacyInsufficientAuthorization)
    case GattRequestNotSupported => Some(LegacyRequestNotSupported)
    case GattInvalidOffset => Some(LegacyInvalidOffset)
    case GattInvalidAttributeLength => Some(LegacyInvalidAttributeLength)
    case GattConnectionCongested => Some(LegacyConnectionCongested)
    case GattConnectionTimeout => Some(LegacyConnectionTimeout)
    case GattFailure => Some(LegacyFailure)
    case UnknownError(code) => Some(LegacyUnknownError(code))
    case GattJavaError(java) => Some(LegacyJavaError(java))
    case WritingToCCCDescriptor => Some(LegacyWritingToCCCDescriptor)
    case NotExecuted | GattNotConnected | StatusCode(_) => None
  }

  /** `Upgrade` embeds the older enum in the newer one: `Downgrade` undoes it,
      and everything `Downgrade` accepts comes from an older variant. */
  lemma UpgradeRoundTrip(old_err: LegacyGattError, new_err: GattError)
    ensures Downgrade(Upgrade(old_err)) == Some(old_err)
    ensures Downgrade(new_err).Some? ==> Upgrade(Downgrade(new_err).value) == new_err
  {
  }

  /** The newer table extends the older one: on the variants both enums
      share, the two conversions choose the same kind. */
  lemma NewTableExtendsLegacy(err: LegacyGattError)
    ensures FromLegacyGattError(err).kind == FromGattError(Upgrade(err)).kind
  {
  }
}
