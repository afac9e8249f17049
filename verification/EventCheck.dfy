/**
 The cross-check of an emitted event with the signed typed data, for the records both verifiers know.

 A record is generic in how ids, addresses and byte strings are represented: Node compares the texts of the
 JSON document, Rust the numbers and bytes it has read from them.
 */
module EventCheck {
  import opened Prelude
  import opened Text
  import opened HexIds
  import S = Store

  datatype CommentValue<I(==), A(==), B(==)> = CommentValue(
    profileId: I, profileIdPointed: I, pubIdPointed: I, contentUri: string, referenceModule: A, collectModule: A,
    collectModuleInitData: B, referenceModuleInitData: B, referenceModuleData: B)

  datatype CommentEvent<I(==), A(==), B(==)> = CommentEvent(
    profileId: I, pubId: I, contentUri: string, profileIdPointed: I, pubIdPointed: I, referenceModuleData: B,
    collectModule: A, collectModuleReturnData: B, referenceModule: A, referenceModuleReturnData: B)

  datatype MirrorValue<I(==), A(==), B(==)> = MirrorValue(
    profileId: I, profileIdPointed: I, pubIdPointed: I, referenceModuleData: B, referenceModule: A,
    referenceModuleInitData: B)

  datatype MirrorEvent<I(==), A(==), B(==)> = MirrorEvent(
    profileId: I, pubId: I, profileIdPointed: I, pubIdPointed: I, referenceModuleData: B, referenceModule: A,
    referenceModuleReturnData: B)

  datatype PostValue<I(==), A(==), B(==)> = PostValue(
    profileId: I, contentUri: string, collectModule: A, collectModuleInitData: B, referenceModule: A,
    referenceModuleInitData: B)

  datatype PostEvent<I(==), A(==), B(==)> = PostEvent(
    profileId: I, pubId: I, contentUri: string, collectModule: A, collectModuleReturnData: B, referenceModule: A,
    referenceModuleReturnData: B)

  type Bytes = seq<nat>

  const EMPTY_BYTE := "0x"

  // ----- Reading texts, as Rust does -----

  /** Twenty bytes behind a single `0x`. */
  function ParseAddress(s: string): Option<nat> {
    if |s| == 42 && "0x" <= s then HexValue(s[2..]) else None
  }

  function DecodeBytes(s: string): Option<Bytes> {
    if s == "" then Some([])
    else if |s| < 2 then None
    else
      var first, rest := HexValue(s[..2]), DecodeBytes(s[2..]);
      if first.None? || rest.None? then None else Some([first.value] + rest.value)
  }

  function ParseBytes(s: string): Option<Bytes> {
    if s == EMPTY_BYTE then Some([]) else DecodeBytes(TrimPrefixes(s))
  }

  /** Two addresses are the same exactly if their texts differ in case at most. */
  lemma {:induction false} SameAddressIff(s: string, t: string)
    requires ParseAddress(s).Some? && ParseAddress(t).Some?
    ensures |s| == 42 && "0x" <= s
    ensures ParseAddress(s) == ParseAddress(t) <==> Lower(s) == Lower(t)
  {
    SameValueIff(s[2..], t[2..]);
    LowerAppend("0x", s[2..]);
    LowerAppend("0x", t[2..]);
    assert s == "0x" + s[2..] && t == "0x" + t[2..];
    assert Lower(s)[2..] == Lower(s[2..]) && Lower(t)[2..] == Lower(t[2..]);
  }

  /** Forty digits behind the prefix are read as the number they denote. */
  lemma {:induction false} AddressIsRead(digits: string)
    requires |digits| == 40
    ensures ParseAddress("0x" + digits) == HexValue(digits)
  {
    assert ("0x" + digits)[2..] == digits;
  }

  ghost function EncodeBytes(bytes: Bytes): string
    requires forall i :: 0 <= i < |bytes| ==> bytes[i] < 256
  {
    if bytes == [] then "" else TwoDigits(bytes[0]) + EncodeBytes(bytes[1..])
  }

  ghost function TwoDigits(b: nat): (s: string)
    requires b < 256
    ensures |s| == 2
  {
    [DIGITS[b / 16], DIGITS[b % 16]]
  }

  lemma {:induction false} ByteRoundTrip(b: nat)
    requires b < 256
    ensures HexValue(TwoDigits(b)) == Some(b)
  {
    var one, two := [DIGITS[b / 16]], TwoDigits(b);
    DigitRoundTrip(b / 16);
    DigitRoundTrip(b % 16);
    hide DigitValue;
    assert one[..0] == "" && two[..1] == one;
    assert HexValue("") == Some(0);
    assert HexValue(one) == Some(b / 16);
  }

  lemma DecodeUnfolds(s: string)
    requires |s| >= 2
    ensures DecodeBytes(s) ==
      if HexValue(s[..2]).None? || DecodeBytes(s[2..]).None? then None
      else Some([HexValue(s[..2]).value] + DecodeBytes(s[2..]).value)
  {
  }

  /** Bytes written as two digits each are read back as they were. */
  lemma {:induction false} BytesRoundTrip(bytes: Bytes)
    requires forall i :: 0 <= i < |bytes| ==> bytes[i] < 256
    ensures DecodeBytes(EncodeBytes(bytes)) == Some(bytes)
  {
    if bytes != [] {
      var s := EncodeBytes(bytes);
      assert s == TwoDigits(bytes[0]) + EncodeBytes(bytes[1..]);
      hide DecodeBytes, HexValue, EncodeBytes, TwoDigits;
      ByteRoundTrip(bytes[0]);
      BytesRoundTrip(bytes[1..]);
      assert s[..2] == TwoDigits(bytes[0]) && s[2..] == EncodeBytes(bytes[1..]);
      DecodeUnfolds(s);
      assert [bytes[0]] + bytes[1..] == bytes;
    }
  }

  lemma {:induction false} EncodedLacksX(bytes: Bytes)
    requires forall i :: 0 <= i < |bytes| ==> bytes[i] < 256
    ensures Lacks(EncodeBytes(bytes), 'x')
  {
    if bytes != [] {
      DigitRoundTrip(bytes[0] / 16);
      DigitRoundTrip(bytes[0] % 16);
      EncodedLacksX(bytes[1..]);
    }
  }

  /** Rust reads bytes behind a prefix, or without one. */
  lemma {:induction false} PrintedBytesAreRead(bytes: Bytes)
    requires forall i :: 0 <= i < |bytes| ==> bytes[i] < 256
    ensures ParseBytes(EncodeBytes(bytes)) == Some(bytes) && ParseBytes("0x" + EncodeBytes(bytes)) == Some(bytes)
  {
    var s := EncodeBytes(bytes);
    BytesRoundTrip(bytes);
    EncodedLacksX(bytes);
    PrefixesAreDropped(s);
    if "0x" <= s {
      PrefixHasX(s);
    }
    assert bytes == [] ==> s == "" && "0x" + s == EMPTY_BYTE;
    PrefixHasX(EMPTY_BYTE);
    hide DecodeBytes, EncodeBytes;
    assert "0x" + s == EMPTY_BYTE ==> s == ("0x" + s)[2..] == EMPTY_BYTE[2..] == "";
    EmptyDecodes();
  }

  lemma EmptyDecodes()
    ensures DecodeBytes("") == Some([])
  {
  }

  lemma LowerSplits(s: string)
    requires |s| >= 2
    ensures Lower(s)[..2] == Lower(s[..2]) && Lower(s)[2..] == Lower(s[2..])
    ensures Lower(s) == Lower(s[..2]) + Lower(s[2..])
  {
  }

  /** Two texts are read as the same bytes exactly if they differ in case at most. */
  lemma {:induction false} SameBytesIff(s: string, t: string)
    requires DecodeBytes(s).Some? && DecodeBytes(t).Some? && |s| == |t|
    ensures |s| == 2 * |DecodeBytes(s).value|
    ensures DecodeBytes(s) == DecodeBytes(t) <==> Lower(s) == Lower(t)
  {
    if s != "" {
      DecodeUnfolds(s);
      DecodeUnfolds(t);
      hide DecodeBytes, HexValue, Lower;
      SameBytesIff(s[2..], t[2..]);
      SameValueIff(s[..2], t[..2]);
      LowerSplits(s);
      LowerSplits(t);
      FirstByteDecides(HexValue(s[..2]).value, HexValue(t[..2]).value, DecodeBytes(s[2..]).value,
                       DecodeBytes(t[2..]).value);
    }
  }

  lemma FirstByteDecides(a: nat, b: nat, xs: Bytes, ys: Bytes)
    ensures [a] + xs == [b] + ys <==> a == b && xs == ys
  {
    assert ([a] + xs)[1..] == xs && ([b] + ys)[1..] == ys;
    assert ([a] + xs)[0] == a && ([b] + ys)[0] == b;
  }

  lemma EmptyBytesIff(s: string)
    requires ParseBytes(s).Some?
    ensures ParseBytes(s).value == [] <==> TrimPrefixes(s) == ""
  {
    assert TrimPrefixes(EMPTY_BYTE) == TrimPrefixes(EMPTY_BYTE[2..]);
  }

  ghost predicate IdsRead(ids: set<string>) { forall s :: s in ids ==> ParseId(s).Some? }
  ghost predicate AddressesRead(addresses: set<string>) { forall s :: s in addresses ==> ParseAddress(s).Some? }
  ghost predicate BytesRead(bytes: set<string>) { forall s :: s in bytes ==> ParseBytes(s).Some? }

  /** Each id is written as Rust prints it. */
  ghost predicate IdsCanonical(ids: set<string>) {
    forall s :: s in ids ==> ParseId(s).Some? && s == PaddedHex(ParseId(s).value)
  }

  /** Each address is written in one fixed way, such as its checksum form. */
  ghost predicate AddressesCanonical(addresses: set<string>, show: nat -> string) {
    forall s :: s in addresses ==> ParseAddress(s).Some? && s == show(ParseAddress(s).value)
  }

  /** No byte string spells "nothing" in another way than `0x`. */
  ghost predicate BytesCanonical(bytes: set<string>) {
    forall s :: s in bytes ==> ParseBytes(s).Some? && (TrimPrefixes(s) == "" ==> s == EMPTY_BYTE)
  }

  ghost function Id(s: string): nat { ParseId(s).GetOr(0) }
  ghost function Address(s: string): nat { ParseAddress(s).GetOr(0) }
  ghost function Data(s: string): Bytes { ParseBytes(s).GetOr([]) }

  /** On canonical texts comparing the texts is comparing what they denote. */
  lemma {:induction false} CanonicalTextsCompare(ids: set<string>, addresses: set<string>, bytes: set<string>,
                                                 show: nat -> string)
    requires IdsCanonical(ids) && AddressesCanonical(addresses, show) && BytesCanonical(bytes)
    ensures forall s, t :: s in ids && t in ids ==> (Id(s) == Id(t) <==> s == t)
    ensures forall s, t :: s in addresses && t in addresses ==> (Address(s) == Address(t) <==> s == t)
    ensures forall s :: s in bytes ==> (Data(s) == [] <==> s == EMPTY_BYTE)
  {
    forall s | s in bytes ensures Data(s) == [] <==> s == EMPTY_BYTE {
      EmptyBytesIff(s);
    }
  }

  lemma PubIdIs(n: nat, s: string)
    requires ParseId(s).Some?
    ensures PaddedHex(n) == s ==> Id(s) == n && n < Pow16(64)
    ensures IdsCanonical({s}) && Id(s) == n ==> PaddedHex(n) == s
  {
    assert s in {s};
    hide Pow16, PaddedHex;
    PrintParse(n);
  }

  // ----- Comments -----

  type NodeCommentValue = CommentValue<string, string, string>
  type NodeCommentEvent = CommentEvent<string, string, string>

  predicate NodeComment(event: NodeCommentEvent, pubCount: nat, value: NodeCommentValue) {
    && PaddedHex(pubCount + 1) == event.pubId
    && value.profileId == event.profileId
    && value.contentUri == event.contentUri
    && value.profileIdPointed == event.profileIdPointed
    && value.pubIdPointed == event.pubIdPointed
    && value.collectModule == event.collectModule
    && event.collectModuleReturnData == EMPTY_BYTE
    && value.referenceModule == event.referenceModule
    && event.referenceModuleReturnData == EMPTY_BYTE
    && value.collectModuleInitData == EMPTY_BYTE
    && value.referenceModuleInitData == EMPTY_BYTE
  }

  /** Adding one to the largest 256-bit number panics. */
  predicate RustComment(event: CommentEvent<nat, nat, Bytes>, pubCount: nat, value: CommentValue<nat, nat, Bytes>) {
    && value.profileId == event.profileId
    && value.contentUri == event.contentUri
    && value.profileIdPointed == event.profileIdPointed
    && value.pubIdPointed == event.pubIdPointed
    && value.collectModule == event.collectModule
    && event.collectModuleReturnData == []
    && value.referenceModule == event.referenceModule
    && value.referenceModuleData == []
    && event.referenceModuleReturnData == []
    && value.collectModuleInitData == []
    && value.referenceModuleInitData == []
    && pubCount + 1 < Pow16(64) && pubCount + 1 == event.pubId
  }

  ghost function ReadCommentValue(v: NodeCommentValue): CommentValue<nat, nat, Bytes> {
    CommentValue(Id(v.profileId), Id(v.profileIdPointed), Id(v.pubIdPointed), v.contentUri,
                 Address(v.referenceModule), Address(v.collectModule), Data(v.collectModuleInitData),
                 Data(v.referenceModuleInitData), Data(v.referenceModuleData))
  }

  ghost function ReadCommentEvent(e: NodeCommentEvent): CommentEvent<nat, nat, Bytes> {
    CommentEvent(Id(e.profileId), Id(e.pubId), e.contentUri, Id(e.profileIdPointed), Id(e.pubIdPointed),
                 Data(e.referenceModuleData), Address(e.collectModule), Data(e.collectModuleReturnData),
                 Address(e.referenceModule), Data(e.referenceModuleReturnData))
  }

  function CommentIds(e: NodeCommentEvent, v: NodeCommentValue): set<string> {
    {e.profileId, e.pubId, e.profileIdPointed, e.pubIdPointed, v.profileId, v.profileIdPointed, v.pubIdPointed}
  }

  function CommentAddresses(e: NodeCommentEvent, v: NodeCommentValue): set<string> {
    {e.collectModule, e.referenceModule, v.collectModule, v.referenceModule}
  }

  function CommentBytes(e: NodeCommentEvent, v: NodeCommentValue): set<string> {
    {e.referenceModuleData, e.collectModuleReturnData, e.referenceModuleReturnData,
     v.collectModuleInitData, v.referenceModuleInitData, v.referenceModuleData}
  }

  /** On every record Rust can read, what Node accepts with empty module data Rust accepts too. */
  lemma NodeCommentImpliesRust(e: NodeCommentEvent, pubCount: nat, v: NodeCommentValue)
    requires IdsRead(CommentIds(e, v)) && AddressesRead(CommentAddresses(e, v)) && BytesRead(CommentBytes(e, v))
    requires NodeComment(e, pubCount, v) && v.referenceModuleData == EMPTY_BYTE
    ensures RustComment(ReadCommentEvent(e), pubCount, ReadCommentValue(v))
  {
    PubIdIs(pubCount + 1, e.pubId);
  }

  /** On canonical records the only difference is the module data, which Node does not look at. */
  lemma {:induction false} CommentChecksAgreeIff(e: NodeCommentEvent, pubCount: nat, v: NodeCommentValue,
                                                 show: nat -> string)
    requires IdsCanonical(CommentIds(e, v)) && AddressesCanonical(CommentAddresses(e, v), show)
    requires BytesCanonical(CommentBytes(e, v))
    ensures RustComment(ReadCommentEvent(e), pubCount, ReadCommentValue(v))
      <==> NodeComment(e, pubCount, v) && v.referenceModuleData == EMPTY_BYTE
  {
    CanonicalTextsCompare(CommentIds(e, v), CommentAddresses(e, v), CommentBytes(e, v), show);
    PubIdIs(pubCount + 1, e.pubId);
  }

  // ----- Mirrors -----

  type NodeMirrorValue = MirrorValue<string, string, string>
  type NodeMirrorEvent = MirrorEvent<string, string, string>

  predicate NodeMirror(event: NodeMirrorEvent, pubCount: nat, value: NodeMirrorValue) {
    && PaddedHex(pubCount + 1) == event.pubId
    && value.profileId == event.profileId
    && value.profileIdPointed == event.profileIdPointed
    && value.pubIdPointed == event.pubIdPointed
    && value.referenceModule == event.referenceModule
    && event.referenceModuleReturnData == EMPTY_BYTE
    && value.referenceModuleInitData == EMPTY_BYTE
  }

  predicate RustMirror(event: MirrorEvent<nat, nat, Bytes>, pubCount: nat, value: MirrorValue<nat, nat, Bytes>) {
    && value.profileId == event.profileId
    && value.profileIdPointed == event.profileIdPointed
    && value.pubIdPointed == event.pubIdPointed
    && value.referenceModule == event.referenceModule
    && value.referenceModuleData == []
    && event.referenceModuleReturnData == []
    && value.referenceModuleInitData == []
    && pubCount + 1 < Pow16(64) && pubCount + 1 == event.pubId
  }

  ghost function ReadMirrorValue(v: NodeMirrorValue): MirrorValue<nat, nat, Bytes> {
    MirrorValue(Id(v.profileId), Id(v.profileIdPointed), Id(v.pubIdPointed), Data(v.referenceModuleData),
                Address(v.referenceModule), Data(v.referenceModuleInitData))
  }

  ghost function ReadMirrorEvent(e: NodeMirrorEvent): MirrorEvent<nat, nat, Bytes> {
    MirrorEvent(Id(e.profileId), Id(e.pubId), Id(e.profileIdPointed), Id(e.pubIdPointed),
                Data(e.referenceModuleData), Address(e.referenceModule), Data(e.referenceModuleReturnData))
  }

  function MirrorIds(e: NodeMirrorEvent, v: NodeMirrorValue): set<string> {
    {e.profileId, e.pubId, e.profileIdPointed, e.pubIdPointed, v.profileId, v.profileIdPointed, v.pubIdPointed}
  }

  function MirrorBytes(e: NodeMirrorEvent, v: NodeMirrorValue): set<string> {
    {e.referenceModuleReturnData, v.referenceModuleInitData, v.referenceModuleData}
  }

  lemma NodeMirrorImpliesRust(e: NodeMirrorEvent, pubCount: nat, v: NodeMirrorValue)
    requires IdsRead(MirrorIds(e, v)) && AddressesRead({e.referenceModule, v.referenceModule})
    requires BytesRead(MirrorBytes(e, v))
    requires NodeMirror(e, pubCount, v) && v.referenceModuleData == EMPTY_BYTE
    ensures RustMirror(ReadMirrorEvent(e), pubCount, ReadMirrorValue(v))
  {
    PubIdIs(pubCount + 1, e.pubId);
  }

  lemma {:induction false} MirrorChecksAgreeIff(e: NodeMirrorEvent, pubCount: nat, v: NodeMirrorValue,
                                                show: nat -> string)
    requires IdsCanonical(MirrorIds(e, v)) && AddressesCanonical({e.referenceModule, v.referenceModule}, show)
    requires BytesCanonical(MirrorBytes(e, v))
    ensures RustMirror(ReadMirrorEvent(e), pubCount, ReadMirrorValue(v))
      <==> NodeMirror(e, pubCount, v) && v.referenceModuleData == EMPTY_BYTE
  {
    CanonicalTextsCompare(MirrorIds(e, v), {e.referenceModule, v.referenceModule}, MirrorBytes(e, v), show);
    PubIdIs(pubCount + 1, e.pubId);
  }

  // ----- Posts -----

  type NodePostValue = PostValue<string, string, string>
  type NodePostEvent = PostEvent<string, string, string>

  function DecimalValue(s: string): Option<nat> {
    if s == "" then Some(0)
    else
      var high, low := DecimalValue(s[..|s| - 1]), s[|s| - 1];
      if high.None? || !('0' <= low <= '9') then None else Some(high.value * 10 + (low as int - '0' as int))
  }

  /** `BigNumber.from`: hexadecimal behind a prefix, decimal without; anything else throws. */
  function BigNumberFrom(s: string): Option<int> {
    if s != "" && s[0] == '-' then
      if Unsigned(s[1..]).None? then None else Some(-Unsigned(s[1..]).value)
    else Unsigned(s)
  }

  function Unsigned(s: string): Option<int> {
    if ("0x" <= s || "0X" <= s) && |s| > 2 then HexValue(s[2..])
    else if s != "" then DecimalValue(s)
    else None
  }

  lemma {:induction false} DecimalRoundTrip(n: nat)
    ensures DecimalValue(S.DecimalDigits(n)) == Some(n)
    ensures '0' <= S.DecimalDigits(n)[0] <= '9'
    ensures |S.DecimalDigits(n)| >= 2 ==> '0' <= S.DecimalDigits(n)[1] <= '9'
  {
    var s := S.DecimalDigits(n);
    assert s[..|s| - 1] == if n < 10 then "" else S.DecimalDigits(n / 10);
    assert DecimalValue("") == Some(0);
    assert s[|s| - 1] == "0123456789"[n % 10];
    if n >= 10 {
      DecimalRoundTrip(n / 10);
      assert s[0] == S.DecimalDigits(n / 10)[0];
    }
  }

  lemma DigitsAreDecimal(digits: string)
    requires digits != "" && (|digits| >= 2 ==> '0' <= digits[1] <= '9')
    ensures Unsigned(digits) == DecimalValue(digits)
  {
    hide DecimalValue, HexValue;
    assert "0x"[1] == 'x' && "0X"[1] == 'X';
  }

  /** A number written in decimal, with its sign, is read as itself. */
  lemma {:induction false} DecimalIsRead(n: int)
    ensures BigNumberFrom(S.Decimal(n)) == Some(n)
  {
    hide Unsigned, DecimalValue, S.DecimalDigits;
    var digits := S.DecimalDigits(if n < 0 then -n else n);
    DecimalRoundTrip(if n < 0 then -n else n);
    DigitsAreDecimal(digits);
    assert n < 0 ==> S.Decimal(n)[0] == '-' && S.Decimal(n)[1..] == digits;
  }

  /** Here Node compares the publication number as a number. */
  predicate NodePost(event: NodePostEvent, simulated: nat, value: NodePostValue) {
    && BigNumberFrom(event.pubId) == Some(simulated)
    && value.profileId == event.profileId
    && value.contentUri == event.contentUri
    && value.collectModule == event.collectModule
    && event.collectModuleReturnData == EMPTY_BYTE
    && value.referenceModule == event.referenceModule
    && event.referenceModuleReturnData == EMPTY_BYTE
    && value.collectModuleInitData == EMPTY_BYTE
    && value.referenceModuleInitData == EMPTY_BYTE
  }

  predicate RustPost(event: PostEvent<nat, nat, Bytes>, simulated: nat, value: PostValue<nat, nat, Bytes>) {
    && simulated == event.pubId
    && value.profileId == event.profileId
    && value.contentUri == event.contentUri
    && value.collectModule == event.collectModule
    && event.collectModuleReturnData == []
    && value.referenceModule == event.referenceModule
    && event.referenceModuleReturnData == []
    && value.collectModuleInitData == []
    && value.referenceModuleInitData == []
  }

  /** A canonical id is the same number for both verifiers. */
  lemma CanonicalNumber(s: string)
    requires IdsCanonical({s})
    ensures ParseId(s).Some? && BigNumberFrom(s) == Some(ParseId(s).value)
  {
    assert s in {s};
    TrimPrinted(ParseId(s).value);
    PrintParse(ParseId(s).value);
    assert s[0] == "0x"[0];
    assert |s| > 2;
  }

  ghost function ReadPostValue(v: NodePostValue): PostValue<nat, nat, Bytes> {
    PostValue(Id(v.profileId), v.contentUri, Address(v.collectModule), Data(v.collectModuleInitData),
              Address(v.referenceModule), Data(v.referenceModuleInitData))
  }

  ghost function ReadPostEvent(e: NodePostEvent): PostEvent<nat, nat, Bytes> {
    PostEvent(Id(e.profileId), Id(e.pubId), e.contentUri, Address(e.collectModule), Data(e.collectModuleReturnData),
              Address(e.referenceModule), Data(e.referenceModuleReturnData))
  }

  function PostAddresses(e: NodePostEvent, v: NodePostValue): set<string> {
    {e.collectModule, e.referenceModule, v.collectModule, v.referenceModule}
  }

  function PostBytes(e: NodePostEvent, v: NodePostValue): set<string> {
    {e.collectModuleReturnData, e.referenceModuleReturnData, v.collectModuleInitData, v.referenceModuleInitData}
  }

  /** For posts the two checks agree on all canonical records. */
  lemma {:induction false} PostChecksAgree(e: NodePostEvent, simulated: nat, v: NodePostValue, show: nat -> string)
    requires IdsCanonical({e.profileId, e.pubId, v.profileId})
    requires AddressesCanonical(PostAddresses(e, v), show) && BytesCanonical(PostBytes(e, v))
    ensures RustPost(ReadPostEvent(e), simulated, ReadPostValue(v)) <==> NodePost(e, simulated, v)
  {
    CanonicalTextsCompare({e.profileId, e.pubId, v.profileId}, PostAddresses(e, v), PostBytes(e, v), show);
    assert e.pubId in {e.profileId, e.pubId, v.profileId};
    CanonicalNumber(e.pubId);
  }
}
