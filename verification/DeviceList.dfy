/** The master-signed device list: its structural checks and its wire form. */
module DeviceList {
  import opened Codec
  import opened Sums
  import Base64

  const MAX_DEVICES := 32
  const MAX_WIRE_BYTES := 64 * 1024
  const UINT32_MAX := 0xffff_ffff
  const MAX_SAFE := 0x1F_FFFF_FFFF_FFFF

  datatype SignedPreKey = SignedPreKey(id: int, pub: Bytes, signature: Bytes)
  datatype DeviceEntry = DeviceEntry(
    signPub: Bytes, dhPub: Bytes, deviceCert: Bytes, signedPreKey: Option<SignedPreKey>, protocolVersion: Option<int>)
  datatype DeviceList = DeviceList(masterPub: Bytes, epoch: int, version: int, devices: seq<DeviceEntry>, listSig: Bytes)

  // ---------------------------------------------------------------------------
  // Structure

  predicate SafePositive(n: int) { 1 <= n <= MAX_SAFE }

  predicate ValidEntry(d: DeviceEntry) {
    && |d.signPub| == 32 && |d.dhPub| == 32 && |d.deviceCert| == 64
    && (d.protocolVersion.Some? ==> 0 <= d.protocolVersion.value <= 0xffff)
    && (d.signedPreKey.Some? ==>
         var spk := d.signedPreKey.value;
         0 <= spk.id <= UINT32_MAX && |spk.pub| == 32 && |spk.signature| == 64)
  }

  ghost predicate DistinctDevices(ds: seq<DeviceEntry>) {
    forall i, j :: 0 <= i < j < |ds| ==> ds[i].signPub != ds[j].signPub && ds[i].dhPub != ds[j].dhPub
  }

  ghost predicate ValidEntries(ds: seq<DeviceEntry>) {
    && 1 <= |ds| <= 32
    && (forall i :: 0 <= i < |ds| ==> ValidEntry(ds[i]))
    && DistinctDevices(ds)
  }

  /** `validDeviceEntries`; two keys are the same when their hex strings are. */
  method ValidDeviceEntries(devices: seq<DeviceEntry>) returns (ok: bool)
    ensures ok <==> ValidEntries(devices)
  {
    if |devices| < 1 || |devices| > MAX_DEVICES { return false; }
    var signKeys: set<Bytes>, dhKeys: set<Bytes> := {}, {};
    for i := 0 to |devices|
      invariant signKeys == set k | 0 <= k < i :: devices[k].signPub
      invariant dhKeys == set k | 0 <= k < i :: devices[k].dhPub
      invariant forall k :: 0 <= k < i ==> ValidEntry(devices[k])
      invariant DistinctDevices(devices[..i])
    {
      var d := devices[i];
      if |d.signPub| != 32 || |d.dhPub| != 32 || |d.deviceCert| != 64 { return false; }
      if d.signPub in signKeys || d.dhPub in dhKeys { return false; }
      signKeys, dhKeys := signKeys + {d.signPub}, dhKeys + {d.dhPub};
      if d.protocolVersion.Some? && (d.protocolVersion.value < 0 || d.protocolVersion.value > 0xffff) { return false; }
      if d.signedPreKey.Some? {
        var spk := d.signedPreKey.value;
        if spk.id < 0 || spk.id > UINT32_MAX || |spk.pub| != 32 || |spk.signature| != 64 { return false; }
      }
    }
    assert devices[..|devices|] == devices;
    return true;
  }

  ghost predicate ValidShape(l: DeviceList) {
    && |l.masterPub| == 32 && SafePositive(l.epoch) && SafePositive(l.version)
    && ValidEntries(l.devices) && |l.listSig| == 64
  }

  // ---------------------------------------------------------------------------
  // The wire form

  datatype WireSpk = WireSpk(id: int, pub: string, signature: string)
  datatype WireDevice = WireDevice(
    signPub: string, dhPub: string, deviceCert: string, protocolVersion: Option<int>, signedPreKey: Option<WireSpk>)
  datatype Wire = Wire(v: int, masterPub: string, epoch: int, version: int, devices: seq<WireDevice>, listSig: string)

  predicate CarriesCapabilities(ds: seq<DeviceEntry>) { exists i :: 0 <= i < |ds| && ds[i].protocolVersion.Some? }

  /** libsodium's padded variant refuses what its encoder does not produce. */
  function FromBase64(s: string): Option<Bytes> {
    if s == "" then Some([])
    else if Base64.IsCanonicalBase64(s, |s|, None) then Some(Base64.Decode(s))
    else None
  }

  function ToWireDevice(d: DeviceEntry): WireDevice {
    WireDevice(
      Base64.Encode(d.signPub), Base64.Encode(d.dhPub), Base64.Encode(d.deviceCert), d.protocolVersion,
      if d.signedPreKey.Some?
      then Some(WireSpk(d.signedPreKey.value.id, Base64.Encode(d.signedPreKey.value.pub), Base64.Encode(d.signedPreKey.value.signature)))
      else None)
  }

  /** `encodeDeviceList`, up to the JSON text; None stands for the exception. */
  ghost function Encode(l: DeviceList): Option<Wire> {
    if !ValidShape(l) then None
    else Some(Wire(
      if CarriesCapabilities(l.devices) then 3 else 2,
      Base64.Encode(l.masterPub), l.epoch, l.version,
      seq(|l.devices|, i requires 0 <= i < |l.devices| => ToWireDevice(l.devices[i])),
      Base64.Encode(l.listSig)))
  }

  predicate WireDeviceOk(v: int, d: WireDevice) {
    && (d.signedPreKey.Some? ==> 0 <= d.signedPreKey.value.id <= UINT32_MAX)
    && (d.protocolVersion.Some? ==> v == 3 && 0 <= d.protocolVersion.value <= 0xffff)
  }

  predicate WireOk(w: Wire) {
    && w.v in {1, 2, 3} && SafePositive(w.epoch) && SafePositive(w.version)
    && 1 <= |w.devices| <= MAX_DEVICES
    && forall i :: 0 <= i < |w.devices| ==> WireDeviceOk(w.v, w.devices[i])
  }

  function FromWireDevice(d: WireDevice): Option<DeviceEntry> {
    var signPub, dhPub, cert := FromBase64(d.signPub), FromBase64(d.dhPub), FromBase64(d.deviceCert);
    if signPub.None? || dhPub.None? || cert.None? then None
    else if d.signedPreKey.None? then Some(DeviceEntry(signPub.value, dhPub.value, cert.value, None, d.protocolVersion))
    else
      var pub, sig := FromBase64(d.signedPreKey.value.pub), FromBase64(d.signedPreKey.value.signature);
      if pub.None? || sig.None? then None
      else Some(DeviceEntry(signPub.value, dhPub.value, cert.value,
        Some(SignedPreKey(d.signedPreKey.value.id, pub.value, sig.value)), d.protocolVersion))
  }

  /** `decodeDeviceList` on JSON text of `length` bytes that parses to `w`. */
  ghost function Decode(w: Wire, length: nat): Option<DeviceList> {
    if length < 1 || length > MAX_WIRE_BYTES || !WireOk(w) then None
    else if exists i :: 0 <= i < |w.devices| && FromWireDevice(w.devices[i]).None? then None
    else
      var masterPub, listSig := FromBase64(w.masterPub), FromBase64(w.listSig);
      if masterPub.None? || listSig.None? then None
      else
        var l := DeviceList(masterPub.value, w.epoch, w.version,
          seq(|w.devices|, i requires 0 <= i < |w.devices| => FromWireDevice(w.devices[i]).value), listSig.value);
        if ValidShape(l) then Some(l) else None
  }

  lemma {:induction false} Base64RoundTrip(b: Bytes)
    ensures FromBase64(Base64.Encode(b)) == Some(b)
  {
    if b == [] {
      Base64.DecodeEmpty();
    } else {
      Base64.EncodingAccepted(b, |Base64.Encode(b)|, None);
      Base64.DecodeEncode(b);
      Base64.EncodeLength(b);
    }
  }

  lemma {:induction false} DeviceRoundTrip(d: DeviceEntry)
    ensures FromWireDevice(ToWireDevice(d)) == Some(d)
  {
    hide FromBase64;
    Base64RoundTrip(d.signPub);
    Base64RoundTrip(d.dhPub);
    Base64RoundTrip(d.deviceCert);
    if d.signedPreKey.Some? {
      Base64RoundTrip(d.signedPreKey.value.pub);
      Base64RoundTrip(d.signedPreKey.value.signature);
    }
  }

  lemma {:induction false} EncodedWireOk(l: DeviceList)
    requires ValidShape(l)
    ensures WireOk(Encode(l).value)
  {
    hide Base64.Encode, DistinctDevices;
    var w := Encode(l).value;
    forall i | 0 <= i < |w.devices| ensures WireDeviceOk(w.v, w.devices[i]) {
      assert ValidEntry(l.devices[i]);
    }
  }

  /** Every well-formed list decodes to itself within the wire bound. */
  lemma {:induction false} DecodeEncode(l: DeviceList, length: nat)
    requires ValidShape(l) && 1 <= length <= 64 * 1024
    ensures Encode(l).Some? && Decode(Encode(l).value, length) == Some(l)
  {
    EncodedWireOk(l);
    hide WireOk, FromWireDevice, ToWireDevice, FromBase64, ValidShape, CarriesCapabilities;
    var w := Encode(l).value;
    Base64RoundTrip(l.masterPub);
    Base64RoundTrip(l.listSig);
    forall i | 0 <= i < |w.devices| ensures FromWireDevice(w.devices[i]) == Some(l.devices[i]) {
      DeviceRoundTrip(l.devices[i]);
    }
    var ds := seq(|w.devices|, i requires 0 <= i < |w.devices| => FromWireDevice(w.devices[i]).value);
    assert ds == l.devices;
  }

  /** Whatever the bytes, what decodes is well formed. */
  lemma {:induction false} DecodedIsValid(w: Wire, length: nat)
    requires Decode(w, length).Some?
    ensures ValidShape(Decode(w, length).value)
  {
    hide WireOk, FromWireDevice, FromBase64, ValidShape;
  }

  lemma {:induction false} TextDetermined(s: string)
    requires FromBase64(s).Some?
    ensures Base64.Encode(FromBase64(s).value) == s
  {
    if s == "" { Base64.DecodeEmpty(); } else { Base64.EncodeDecode(s); }
  }

  lemma {:induction false} DeviceDetermined(d: WireDevice)
    requires FromWireDevice(d).Some?
    ensures ToWireDevice(FromWireDevice(d).value) == d
  {
    hide FromBase64, Base64.Encode;
    TextDetermined(d.signPub);
    TextDetermined(d.dhPub);
    TextDetermined(d.deviceCert);
    if d.signedPreKey.Some? {
      TextDetermined(d.signedPreKey.value.pub);
      TextDetermined(d.signedPreKey.value.signature);
    }
  }

  /** What decodes is well formed, and encodes to the very wire value it was decoded
      from, except that the version tag becomes the one its content calls for: no two
      wire values of one version tag decode to the same list. */
  lemma {:induction false} DecodeDeterminesWire(w: Wire, length: nat)
    requires Decode(w, length).Some?
    ensures var l := Decode(w, length).value;
      Encode(l) == Some(w.(v := if CarriesCapabilities(l.devices) then 3 else 2)) && 1 <= length <= 64 * 1024
  {
    hide WireOk, FromWireDevice, ToWireDevice, FromBase64, ValidShape, CarriesCapabilities, Base64.Encode;
    DecodedIsValid(w, length);
    var l := Decode(w, length).value;
    TextDetermined(w.masterPub);
    TextDetermined(w.listSig);
    var ds := seq(|l.devices|, i requires 0 <= i < |l.devices| => ToWireDevice(l.devices[i]));
    forall i | 0 <= i < |w.devices| ensures ds[i] == w.devices[i] { DeviceDetermined(w.devices[i]); }
    assert ds == w.devices;
  }

  /** What decodes has positive safe numbers, 1 to 32 devices and one of the three tags,
      and only under tag 3 does a device name its protocol version; under the older tags,
      lists without one decode alike. */
  lemma {:induction false} DecodedNumbers(w: Wire, length: nat, tag: int)
    requires Decode(w, length).Some?
    ensures var l := Decode(w, length).value;
      && w.v in {1, 2, 3} && 1 <= l.epoch <= 0x1F_FFFF_FFFF_FFFF && 1 <= l.version <= 0x1F_FFFF_FFFF_FFFF
      && 1 <= |l.devices| <= 32
      && (w.v != 3 ==> !CarriesCapabilities(l.devices))
      && (!CarriesCapabilities(l.devices) && tag in {1, 2, 3} ==> Decode(w.(v := tag), length) == Some(l))
  {
    hide FromBase64, ValidShape;
    DecodedIsValid(w, length);
    ShapeNumbers(Decode(w, length).value);
    var l := Decode(w, length).value;
    forall i | 0 <= i < |w.devices| ensures l.devices[i].protocolVersion == w.devices[i].protocolVersion {}
    if !CarriesCapabilities(l.devices) {
      forall i | 0 <= i < |w.devices| ensures WireDeviceOk(tag, w.devices[i]) {
        assert l.devices[i].protocolVersion.None?;
        assert WireDeviceOk(w.v, w.devices[i]);
      }
    }
  }

  lemma {:induction false} ShapeNumbers(l: DeviceList)
    requires ValidShape(l)
    ensures 1 <= l.epoch <= 0x1F_FFFF_FFFF_FFFF && 1 <= l.version <= 0x1F_FFFF_FFFF_FFFF && 1 <= |l.devices| <= 32
  {}

  // ---------------------------------------------------------------------------
  // The length of the JSON text

  /** Decimal digits of a non-negative number. */
  function Digits(n: int): nat
    decreases if n < 10 then 0 else n
  {
    if n < 10 then 1 else 1 + Digits(n / 10)
  }

  /** `{"id":…,"pub":"…","signature":"…"}` */
  function SpkText(s: WireSpk): nat {
    |"{'id':,'pub':'','signature':''}"| + Digits(s.id) + |s.pub| + |s.signature|
  }

  /** `{"signPub":"…","dhPub":"…","deviceCert":"…"}` and the optional members. */
  function DeviceText(d: WireDevice): nat {
    |"{'signPub':'','dhPub':'','deviceCert':''}"| + |d.signPub| + |d.dhPub| + |d.deviceCert|
      + (if d.protocolVersion.Some? then |",'protocolVersion':"| + Digits(d.protocolVersion.value) else 0)
      + (if d.signedPreKey.Some? then |",'signedPreKey':"| + SpkText(d.signedPreKey.value) else 0)
  }

  /** The devices' texts with a comma after each but the last. */
  function DevicesText(ds: seq<WireDevice>): nat {
    if ds == [] then 0
    else DevicesText(ds[..|ds| - 1]) + (if |ds| > 1 then 1 else 0) + DeviceText(ds[|ds| - 1])
  }

  /** `JSON.stringify(wire).length`: base64 needs no escapes. */
  function TextLength(w: Wire): nat {
    |"{'v':,'masterPub':'','epoch':,'version':,'devices':[],'listSig':''}"|
      + Digits(w.v) + |w.masterPub| + Digits(w.epoch) + Digits(w.version) + DevicesText(w.devices) + |w.listSig|
  }

  function Power10(k: nat): nat { if k == 0 then 1 else 10 * Power10(k - 1) }

  lemma {:induction false} DigitsBound(n: nat, k: nat)
    requires k >= 1 && n < Power10(k)
    ensures Digits(n) <= k
  {
    assert k == 1 ==> Power10(k) == 10 * Power10(0);
    if n >= 10 { DigitsBound(n / 10, k - 1); }
  }

  lemma {:induction false} Powers()
    ensures Power10(5) == 100_000 && Power10(10) == 10_000_000_000 && Power10(16) == 10_000_000_000_000_000
  {
    assert Power10(3) == 1000;
    assert Power10(6) == 1_000_000;
    assert Power10(9) == 1_000_000_000;
    assert Power10(12) == 1_000_000_000_000;
    assert Power10(15) == 1_000_000_000_000_000;
  }

  lemma {:induction false} EncodedLength(b: Bytes)
    ensures |Base64.Encode(b)| == (|b| + 2) / 3 * 4
    decreases |b|
  {
    hide Base64.Symbol;
    if |b| >= 3 {
      EncodedLength(b[3..]);
      assert |b[3..]| == |b| - 3 && (|b| + 2) / 3 == (|b[3..]| + 2) / 3 + 1;
    }
  }

  lemma {:induction false} DeviceTextBound(d: DeviceEntry)
    requires ValidEntry(d)
    ensures DeviceText(ToWireDevice(d)) <= 500
  {
    hide Base64.Encode, Digits;
    EncodedLength(d.signPub);
    EncodedLength(d.dhPub);
    EncodedLength(d.deviceCert);
    Powers();
    if d.protocolVersion.Some? { DigitsBound(d.protocolVersion.value, 5); }
    if d.signedPreKey.Some? {
      EncodedLength(d.signedPreKey.value.pub);
      EncodedLength(d.signedPreKey.value.signature);
      DigitsBound(d.signedPreKey.value.id, 10);
    }
  }

  lemma {:induction false} DevicesTextBound(ds: seq<WireDevice>)
    requires forall i :: 0 <= i < |ds| ==> DeviceText(ds[i]) <= 500
    ensures DevicesText(ds) <= 501 * |ds|
  {
    hide DeviceText;
    if ds != [] { DevicesTextBound(ds[..|ds| - 1]); }
  }

  /** The text of a well-formed list always fits the wire bound, so what is encoded
      can always be decoded. */
  lemma {:induction false} EncodingAlwaysDecodes(l: DeviceList)
    requires ValidShape(l)
    ensures Encode(l).Some?
    ensures Decode(Encode(l).value, TextLength(Encode(l).value)) == Some(l)
  {
    hide Base64.Encode, DistinctDevices, DeviceText, DevicesText, ToWireDevice, Decode, Digits;
    var w := Encode(l).value;
    forall i | 0 <= i < |w.devices| ensures DeviceText(w.devices[i]) <= 500 {
      assert ValidEntry(l.devices[i]);
      DeviceTextBound(l.devices[i]);
    }
    DevicesTextBound(w.devices);
    EncodedLength(l.masterPub);
    EncodedLength(l.listSig);
    Powers();
    DigitsBound(w.epoch, 16);
    DigitsBound(w.version, 16);
    DigitsBound(w.v, 1);
    DecodeEncode(l, TextLength(w));
  }
}
