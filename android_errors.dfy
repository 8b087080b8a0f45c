/** Conversions from the Android platform's error enums to the crate's error
    (src/android/mod.rs): a total table from each platform variant to an
    `ErrorKind`, keeping the platform error as the source. */
module AndroidErrors {
  import opened Wrappers

  /** The `ErrorKind` variants the Android conversions produce. */
  datatype ErrorKind =
    | NotAuthorized
    | NotSupported
    | InvalidParameter
    | Timeout
    | Other
    | Internal
    | AdapterUnavailable
    | NotConnected
    | AlreadyScanning
    | NotReady
    | ConnectionFailed

  /** A Java exception surfaced by the platform layer; only its debug text is used. */
  datatype JavaError = JavaException(debugText: string)

  /** The status codes the platform attaches to a failed GATT request. */
  datatype BluetoothStatusCode =
    | NotAllowed
    | GattWriteNotAllowed
    | NotBonded
    | GattWriteBusy
    | ProfileServiceNotBound
    | FeatureNotSupported
    | FeatureNotConfigured
    | Unknown
    | UnknownStatus(code: int)
    | NotEnabled
    | MissingBluetoothConnectPermission

  /** The platform's GATT error (the variant `BluetoothStatusCode::UnknownError`
      is `UnknownStatus` here, `GattError::UnknownError` is `UnknownError`). */
  datatype GattError =
    | GattReadNotPermitted
    | GattWriteNotPermitted
    | GattInsufficientAuthentication
    | GattInsufficientEncryption
    | GattInsufficientAuthorization
    | GattRequestNotSupported
    | GattInvalidOffset
    | GattInvalidAttributeLength
    | GattConnectionCongested
    | GattConnectionTimeout
    | GattFailure
    | UnknownError(code: int)
    | GattJavaError(java: JavaError)
    | WritingToCCCDescriptor
    | NotExecuted
    | GattNotConnected
    | StatusCode(status: BluetoothStatusCode)

  /** Why a scan could not start (`InteralError` and `ScanningToFrequently`
      are spelled as the platform spells them). */
  datatype ScanError =
    | AlreadyStarted
    | FeatureUnsupported
    | ApplicationRegistration
    | InteralError
    | OutOfHardwareResources
    | ScanningToFrequently
    | Unavailable
    | UnknownScanError(code: int)

  /** Why pairing failed. */
  datatype PairingError =
    | PairingFailed
    | PairingNotConnected
    | PairingJavaError(java: JavaError)
    | UnknownPairingError(code: int)

  /** The error message: the source's `Display` text or the Java error's
      `Debug` text. The texts themselves come from the platform crate. */
  datatype Message<S> = DisplayOf(shown: S) | DebugOf(java: JavaError)

  /** `crate::Error`: a kind, an optional boxed source error, a message. */
  datatype Error<S> = Error(kind: ErrorKind, source: Option<S>, message: Message<S>)

  /** The kind `From<GattError>` assigns to each GATT error. */
  function GattErrorKind(err: GattError): ErrorKind
  {
    match err
    case GattReadNotPermitted | GattWriteNotPermitted | GattInsufficientAuthentication
         | GattInsufficientEncryption | GattInsufficientAuthorization
         | StatusCode(NotAllowed) | StatusCode(GattWriteNotAllowed) => NotAuthorized
    case GattRequestNotSupported | StatusCode(NotBonded) => NotSupported
    case GattInvalidOffset | GattInvalidAttributeLength => InvalidParameter
    case GattConnectionCongested | GattConnectionTimeout | StatusCode(GattWriteBusy) => Timeout
    case GattFailure | StatusCode(ProfileServiceNotBound) | StatusCode(FeatureNotSupported)
         | StatusCode(FeatureNotConfigured) => Other
    case UnknownError(_) | StatusCode(Unknown) | StatusCode(UnknownStatus(_)) | GattJavaError(_)
         | WritingToCCCDescriptor | NotExecuted => Internal
    case StatusCode(NotEnabled) | StatusCode(MissingBluetoothConnectPermission) => AdapterUnavailable
    case GattNotConnected => NotConnected
  }

  /** `From<GattError> for crate::Error`. */
  function FromGattError(err: GattError): (r: Error<GattError>)
    // the platform error is kept as the source, and its text is the message
    ensures r.source == Some(err) && r.message == DisplayOf(err)
    // a GATT error never reads as a scanning, readiness or connection failure
    ensures r.kind !in {AlreadyScanning, NotReady, ConnectionFailed}
  {
    Error(GattErrorKind(err), Some(err), DisplayOf(err))
  }

  /** Access refusals: the two not-permitted errors, the three missing
      security levels, and the NotAllowed and GattWriteNotAllowed statuses. */
  lemma GattNotAuthorizedCases(err: GattError)
    ensures FromGattError(err).kind == NotAuthorized
            <==> err in {GattReadNotPermitted, GattWriteNotPermitted, GattInsufficientAuthentication,
                         GattInsufficientEncryption, GattInsufficientAuthorization,
                         StatusCode(NotAllowed), StatusCode(GattWriteNotAllowed)}
  {
  }

  /** Unsupported requests, including the NotBonded status. */
  lemma GattNotSupportedCases(err: GattError)
    ensures FromGattError(err).kind == NotSupported
            <==> err in {GattRequestNotSupported, StatusCode(NotBonded)}
  {
  }

  /** Bad offsets and lengths are invalid parameters. */
  lemma GattInvalidParameterCases(err: GattError)
    ensures FromGattError(err).kind == InvalidParameter
            <==> err in {GattInvalidOffset, GattInvalidAttributeLength}
  {
  }

  /** Congestion, connection time-out and a busy write all time out. */
  lemma GattTimeoutCases(err: GattError)
    ensures FromGattError(err).kind == Timeout
            <==> err in {GattConnectionCongested, GattConnectionTimeout, StatusCode(GattWriteBusy)}
  {
  }

  /** Generic failures and unsupported or unconfigured platform features. */
  lemma GattOtherCases(err: GattError)
    ensures FromGattError(err).kind == Other
            <==> err in {GattFailure, StatusCode(ProfileServiceNotBound), StatusCode(FeatureNotSupported),
                         StatusCode(FeatureNotConfigured)}
  {
  }

  /** Unknown errors, Java errors, CCC descriptor writes and unexecuted requests are internal. */
  lemma GattInternalCases(err: GattError)
    ensures FromGattError(err).kind == Internal
            <==> err.UnknownError? || err.GattJavaError? || err == StatusCode(Unknown)
                 || (err.StatusCode? && err.status.UnknownStatus?)
                 || err in {WritingToCCCDescriptor, NotExecuted}
  {
  }

  /** A disabled adapter or a missing BLUETOOTH_CONNECT permission. */
  lemma GattAdapterUnavailableCases(err: GattError)
    ensures FromGattError(err).kind == AdapterUnavailable
            <==> err in {StatusCode(NotEnabled), StatusCode(MissingBluetoothConnectPermission)}
  {
  }

  /** Only the not-connected error reads as not connected. */
  lemma GattNotConnectedCases(err: GattError)
    ensures FromGattError(err).kind == NotConnected <==> err == GattNotConnected
  {
  }

  /** `From<JavaError> for crate::Error`: internal, with no source, and the
      Java error's debug text as the message. */
  function FromJavaError<S>(err: JavaError): (r: Error<S>)
    ensures r.kind == Internal && r.source == None && r.message == DebugOf(err)
  {
    Error(Internal, None, DebugOf(err))
  }

  /** The kind `From<ScanError>` assigns to each scan error. */
  function ScanErrorKind(err: ScanError): ErrorKind
  {
    match err
    case AlreadyStarted => AlreadyScanning
    case FeatureUnsupported => NotSupported
    case ApplicationRegistration | InteralError => Internal
    case OutOfHardwareResources => NotReady
    case ScanningToFrequently => Timeout
    case Unavailable => AdapterUnavailable
    case UnknownScanError(_) => Other
  }

  /** `From<ScanError> for crate::Error`. */
  function FromScanError(err: ScanError): (r: Error<ScanError>)
    ensures r.source == Some(err) && r.message == DisplayOf(err)
    // no scan error reads as an access, parameter, connection or pairing failure
    ensures r.kind !in {NotAuthorized, InvalidParameter, NotConnected, ConnectionFailed}
  {
    Error(ScanErrorKind(err), Some(err), DisplayOf(err))
  }

  /** The scan-error table, kind by kind. */
  lemma ScanErrorCases(err: ScanError)
    ensures FromScanError(err).kind == AlreadyScanning <==> err == AlreadyStarted
    ensures FromScanError(err).kind == NotSupported <==> err == FeatureUnsupported
    ensures FromScanError(err).kind == Internal <==> err in {ApplicationRegistration, InteralError}
    ensures FromScanError(err).kind == NotReady <==> err == OutOfHardwareResources
    ensures FromScanError(err).kind == Timeout <==> err == ScanningToFrequently
    ensures FromScanError(err).kind == AdapterUnavailable <==> err == Unavailable
    ensures FromScanError(err).kind == Other <==> err.UnknownScanError?
  {
  }

  /** The kind `From<PairingError>` assigns to each pairing error. */
  function PairingErrorKind(err: PairingError): ErrorKind
  {
    match err
    case PairingFailed => ConnectionFailed
    case PairingNotConnected => NotConnected
    case PairingJavaError(_) | UnknownPairingError(_) => Other
  }

  /** `From<PairingError> for crate::Error`. */
  function FromPairingError(err: PairingError): (r: Error<PairingError>)
    ensures r.source == Some(err) && r.message == DisplayOf(err)
    ensures r.kind in {ConnectionFailed, NotConnected, Other}
  {
    Error(PairingErrorKind(err), Some(err), DisplayOf(err))
  }

  /** The pairing-error table, kind by kind. */
  lemma PairingErrorCases(err: PairingError)
    ensures FromPairingError(err).kind == ConnectionFailed <==> err == PairingFailed
    ensures FromPairingError(err).kind == NotConnected <==> err == PairingNotConnected
    ensures FromPairingError(err).kind == Other <==> err.PairingJavaError? || err.UnknownPairingError?
  {
  }
}
