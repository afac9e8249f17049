/**
 The database: one map from text keys to values, used as if it were several independent ones.
 */
module Store {
  import opened Prelude
  import opened Text

  /** What the program means to store. */
  datatype Slot =
    | Block(number: int)
    | Tx(id: string)
    | Metadata(id: string)
    | Proofs(id: string)
    | Signature(text: string)
    | Cursor
    | TotalChecked

  /** `Verdict` is a saved result; `signature` is that of its publication, if it has one. */
  datatype Value =
    | Verdict(success: bool, signature: Option<string>)
    | Document(json: string)
    | Empty
    | CursorText(cursor: string)
    | Number(n: nat)

  // ----- Keys -----

  function Decimal(n: int): string {
    if n < 0 then "-" + DecimalDigits(-n) else DecimalDigits(n)
  }

  function DecimalDigits(n: nat): (s: string)
    ensures s != ""
  {
    if n < 10 then ["0123456789"[n]] else DecimalDigits(n / 10) + ["0123456789"[n % 10]]
  }

  const TOTAL := "totalCheckedCount"

  function Reference(slot: Slot): string
    requires !slot.Cursor?
  {
    match slot
    case Block(_) => "block"
    case Tx(_) => "tx"
    case Metadata(_) => "tx_da_metadata"
    case Proofs(_) => "tx_timestamp_proof_metadata"
    case Signature(_) => "tx_signature"
    case TotalChecked => "tx"
  }

  function Rest(slot: Slot): string {
    match slot
    case Block(n) => Decimal(n)
    case Tx(id) => id
    case Metadata(id) => id
    case Proofs(id) => id
    case Signature(s) => s
    case Cursor => ""
    case TotalChecked => TOTAL
  }

  function Key(slot: Slot): string {
    if slot.Cursor? then "cursor" else Reference(slot) + ":" + Rest(slot)
  }

  lemma {:induction false} DecimalDigitsInjective(m: nat, n: nat)
    requires DecimalDigits(m) == DecimalDigits(n)
    ensures m == n
  {
    var s, t := DecimalDigits(m), DecimalDigits(n);
    assert s[|s| - 1] == "0123456789"[m % 10] && t[|t| - 1] == "0123456789"[n % 10];
    if m >= 10 && n >= 10 {
      assert s[..|s| - 1] == DecimalDigits(m / 10) && t[..|t| - 1] == DecimalDigits(n / 10);
      DecimalDigitsInjective(m / 10, n / 10);
    } else {
      assert |DecimalDigits(m / 10)| >= 1 && |DecimalDigits(n / 10)| >= 1;
    }
  }

  lemma {:induction false} DigitsAreNotMinus(n: nat)
    ensures Lacks(DecimalDigits(n), '-')
  {
    if n >= 10 {
      DigitsAreNotMinus(n / 10);
    }
  }

  lemma DecimalInjective(m: int, n: int)
    requires Decimal(m) == Decimal(n)
    ensures m == n
  {
    DigitsAreNotMinus(if m < 0 then -m else m);
    DigitsAreNotMinus(if n < 0 then -n else n);
    assert m < 0 ==> Decimal(m)[0] == '-' && Decimal(m)[1..] == DecimalDigits(-m);
    assert n < 0 ==> Decimal(n)[0] == '-' && Decimal(n)[1..] == DecimalDigits(-n);
    DecimalDigitsInjective(if m < 0 then -m else m, if n < 0 then -n else n);
  }

  lemma KeyHasColon(slot: Slot)
    ensures Lacks(Key(slot), ':') <==> slot.Cursor?
  {
    if !slot.Cursor? {
      assert Key(slot)[|Reference(slot)|] == ':';
    }
  }

  lemma SameReference(a: Slot, b: Slot)
    requires !a.Cursor? && !b.Cursor? && Reference(a) == Reference(b)
    ensures a.Block? == b.Block? && a.Metadata? == b.Metadata? && a.Proofs? == b.Proofs?
    ensures a.Signature? == b.Signature?
  {
    assert |Reference(a)| == |Reference(b)|;
  }

  lemma ReferenceLacksColon(a: Slot)
    requires !a.Cursor?
    ensures Lacks(Reference(a), ':')
  {
  }

  lemma SplitKeys(a: Slot, b: Slot)
    requires !a.Cursor? && !b.Cursor? && Key(a) == Key(b)
    ensures Reference(a) == Reference(b) && Rest(a) == Rest(b)
  {
    ReferenceLacksColon(a);
    ReferenceLacksColon(b);
    hide Reference, Rest;
    assert Reference(a) + [':'] + Rest(a) == Reference(b) + [':'] + Rest(b);
    SplitUnique(Reference(a), Reference(b), ':', Rest(a), Rest(b));
  }

  /** Two slots share their key in one case only: a transaction called like the counter. */
  lemma KeysCollideIff(a: Slot, b: Slot)
    ensures Key(a) == Key(b) <==> a == b || {a, b} == {Tx(TOTAL), TotalChecked}
  {
    KeyHasColon(a);
    KeyHasColon(b);
    if Key(a) == Key(b) && !a.Cursor? && !b.Cursor? {
      SplitKeys(a, b);
      SameReference(a, b);
      if a.Block? {
        DecimalInjective(a.number, b.number);
      }
      assert a != b ==> {a, b} == {Tx(TOTAL), TotalChecked};
    }
    if {a, b} == {Tx(TOTAL), TotalChecked} {
      assert a in {Tx(TOTAL), TotalChecked} && b in {Tx(TOTAL), TotalChecked};
    }
  }

  // ----- Refinement -----

  function Get(store: map<string, Value>, slot: Slot): Option<Value> {
    if Key(slot) in store then Some(store[Key(slot)]) else None
  }

  /** The store as independent maps, for all slots but the one that shares its key with the counter. */
  ghost function View(store: map<string, Value>): imap<Slot, Value> {
    imap slot: Slot | slot != Tx(TOTAL) && Key(slot) in store :: store[Key(slot)]
  }

  /** Writing one slot changes that slot and no other. */
  lemma PutRefinesUpdate(store: map<string, Value>, slot: Slot, value: Value)
    requires slot != Tx(TOTAL)
    ensures View(store[Key(slot) := value]) == View(store)[slot := value]
  {
    forall other: Slot {
      KeysCollideIff(slot, other);
    }
  }

  /** A verdict saved for a transaction called like the counter destroys the counter. */
  lemma CounterIsLostIff(store: map<string, Value>, slot: Slot, value: Value)
    requires slot != TotalChecked && Get(store, TotalChecked) != Some(value)
    ensures Get(store[Key(slot) := value], TotalChecked) != Get(store, TotalChecked) <==> slot == Tx(TOTAL)
  {
    KeysCollideIff(slot, TotalChecked);
    assert Tx(TOTAL) in {Tx(TOTAL), TotalChecked};
  }

  /** `Number(text)` of what is stored. */
  datatype Count = Count(n: nat) | NaN

  function CountOf(value: Option<Value>): Count {
    match value
    case None => Count(0)
    case Some(Number(n)) => Count(n)
    case Some(Empty) => Count(0)
    case Some(_) => NaN
  }

  /** `count || 0` */
  function OrZero(count: Count): nat {
    if count.NaN? then 0 else count.n
  }

  /** The counter cannot be read as a number exactly after a verdict for the transaction that shares its key. */
  lemma VerdictSpoilsCounterIff(store: map<string, Value>, slot: Slot, success: bool, signature: Option<string>)
    requires slot != TotalChecked && CountOf(Get(store, TotalChecked)) != NaN
    ensures CountOf(Get(store[Key(slot) := Verdict(success, signature)], TotalChecked)) == NaN <==> slot == Tx(TOTAL)
  {
    KeysCollideIff(slot, TotalChecked);
    assert Tx(TOTAL) in {Tx(TOTAL), TotalChecked};
  }

  function SignatureOf(value: Option<Value>): Option<string> {
    if value.Some? && value.value.Verdict? then value.value.signature else None
  }

  /** A verdict stored with its publication has the signature of the publication on record. */
  ghost predicate SignaturesRecorded(store: map<string, Value>) {
    forall id :: SignatureOf(Get(store, Tx(id))).Some? ==>
      Get(store, Signature(SignatureOf(Get(store, Tx(id))).value)).Some?
  }

  /** The two writes of a verdict, in this order, keep signatures recorded; so does the first one alone. */
  lemma SaveKeepsRecorded(store: map<string, Value>, id: string, success: bool, signature: Option<string>)
    requires SignaturesRecorded(store)
    ensures var signed := if signature.None? then store else store[Key(Signature(signature.value)) := Empty];
      SignaturesRecorded(signed) && SignaturesRecorded(signed[Key(Tx(id)) := Verdict(success, signature)])
  {
    hide Key;
    var signed := if signature.None? then store else store[Key(Signature(signature.value)) := Empty];
    var saved := signed[Key(Tx(id)) := Verdict(success, signature)];
    forall other, text: string
      ensures Key(Tx(id)) == Key(Tx(other)) ==> id == other
      ensures Key(Signature(text)) != Key(Tx(other)) && Key(Tx(id)) != Key(Signature(text))
    {
      KeysCollideIff(Tx(id), Tx(other));
      KeysCollideIff(Signature(text), Tx(other));
      KeysCollideIff(Tx(id), Signature(text));
    }
  }

  ghost function SavedView(view: imap<Slot, Value>, id: string, success: bool, signature: Option<string>)
    : imap<Slot, Value>
  {
    var signed := if signature.None? then view else view[Signature(signature.value) := Empty];
    signed[Tx(id) := Verdict(success, signature)]
  }

  class Db {
    var store: map<string, Value>
    var started: bool

    constructor ()
      ensures !started && store == map[]
    {
      started, store := false, map[];
    }

    /** Opening it twice is an error. */
    method Start() returns (r: Result<(), string>)
      modifies this`started
      ensures started && r == if old(started) then Err("Database already started") else Ok(())
    {
      r := if started then Err("Database already started") else Ok(());
      started := true;
    }

    /** Reads are empty before the database is started. */
    method Read(slot: Slot) returns (value: Option<Value>)
      ensures value == if started then Get(store, slot) else None
      ensures started && slot != Tx(TOTAL) ==> (value.Some? <==> slot in View(store))
      ensures value.Some? && slot != Tx(TOTAL) ==> value.value == View(store)[slot]
    {
      value := if started && Key(slot) in store then Some(store[Key(slot)]) else None;
    }

    /** Writes are dropped before the database is started; `fails` is an error of the storage engine. */
    method Save(slot: Slot, value: Value, fails: bool) returns (r: Result<(), string>)
      modifies this`store
      ensures r.Err? <==> started && fails
      ensures !started || fails ==> store == old(store)
      ensures started && !fails ==> store == old(store)[Key(slot) := value]
      ensures started && !fails && slot != Tx(TOTAL) ==> View(store) == old(View(store))[slot := value]
    {
      r := Ok(());
      if started {
        if fails {
          return Err("Could not write to the db - critical error!");
        }
        if slot != Tx(TOTAL) {
          PutRefinesUpdate(store, slot, value);
        }
        store := store[Key(slot) := value];
      }
    }

    /** The signature first, then the verdict; either write may fail. */
    method SaveTx(id: string, success: bool, signature: Option<string>, firstFails: bool, secondFails: bool)
      returns (r: Result<(), string>)
      requires SignaturesRecorded(store)
      modifies this`store
      ensures SignaturesRecorded(store)
      ensures started && r.Ok? ==> Get(store, Tx(id)) == Some(Verdict(success, signature))
      ensures started && r.Ok? && signature.Some? ==> Get(store, Signature(signature.value)) == Some(Empty)
      ensures started && r.Ok? && id != TOTAL ==> View(store) == SavedView(old(View(store)), id, success, signature)
      ensures started && r.Err? ==> Get(store, Tx(id)) == old(Get(store, Tx(id)))
      ensures r.Err? <==> started && (secondFails || (signature.Some? && firstFails))
      ensures !started ==> store == old(store)
    {
      SaveKeepsRecorded(store, id, success, signature);
      r := Ok(());
      if signature.Some? {
        KeysCollideIff(Signature(signature.value), Tx(id));
        r := Save(Signature(signature.value), Empty, firstFails);
      }
      if r.Ok? {
        r := Save(Tx(id), Verdict(success, signature), secondFails);
      }
    }

    method HasSignatureBeenUsed(signature: string) returns (used: bool)
      ensures used <==> started && Signature(signature) in View(store)
    {
      var value := Read(Signature(signature));
      used := value.Some?;
    }

    /** A missing counter counts as zero; a verdict stored under its key is not a number. */
    method TotalCheckedCount() returns (count: Count)
      requires started
      ensures count == CountOf(Get(store, TotalChecked))
      ensures count == NaN <==>
        var stored := Get(store, TotalChecked); stored.Some? && !stored.value.Number? && !stored.value.Empty?
      ensures var stored := Get(store, TotalChecked);
        && (stored.None? || stored.value.Empty? ==> count == Count(0))
        && (stored.Some? && stored.value.Number? ==> count == Count(stored.value.n))
    {
      var value := Read(TotalChecked);
      count := CountOf(value);
    }

    /** Adds to the stored counter, whatever the caller passes; what is not a number counts as zero here. */
    method SaveTotalCheckedCount(checked: nat, fails: bool) returns (r: Result<(), string>)
      requires started
      modifies this`store
      ensures r.Err? <==> fails
      ensures fails ==> store == old(store)
      ensures !fails ==>
        View(store) == old(View(store))[TotalChecked := Number(checked + OrZero(CountOf(old(Get(store, TotalChecked)))))]
      ensures !fails ==>
        && (old(Get(store, TotalChecked)).Some? && old(Get(store, TotalChecked)).value.Number? ==>
              Get(store, TotalChecked) == Some(Number(old(Get(store, TotalChecked)).value.n + checked)))
        && (old(Get(store, TotalChecked)).None? || !old(Get(store, TotalChecked)).value.Number? ==>
              Get(store, TotalChecked) == Some(Number(checked)))
    {
      var current := TotalCheckedCount();
      r := Save(TotalChecked, Number(OrZero(current) + checked), fails);
    }
  }
}
