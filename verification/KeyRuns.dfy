/** Keys as they are generated into a directory, and the trust store that directory makes (internal/app/evidence.go:45-101, 384-435). */
module KeyRuns {
  import opened Basics
  import opened KeyFiles

  /** The files of a key directory, by name. */
  type Dir = map<string, string>

  /** One `evidence keygen`: the fingerprint is the drawn key's. */
  datatype Wanted = Wanted(producer: string, keyID: string, force: bool, fingerprint: string, publicKey: string, seed: string)

  const KEY := ".key"

  function KeyIDOf(a: Wanted): string {
    if a.keyID == "" then a.fingerprint else a.keyID
  }

  function ProducerOf(a: Wanted): string {
    if a.producer == "" then KeyIDOf(a) else a.producer
  }

  function PubOf(b: Binding): string {
    PubBase(b.producer, b.keyID)
  }

  predicate Valid(b: Binding) {
    ValidIdent(b.producer) && ValidIdent(b.keyID)
  }

  function BindingOf(a: Wanted): Binding {
    Binding(ProducerOf(a), KeyIDOf(a))
  }

  /** Names are valid, and nothing is overwritten unasked. */
  predicate Makes(d: Dir, a: Wanted) {
    Valid(BindingOf(a)) && (a.force || (KeyIDOf(a) + KEY !in d && PubOf(BindingOf(a)) !in d))
  }

  function After(d: Dir, a: Wanted): Dir {
    if Makes(d, a) then d[KeyIDOf(a) + KEY := a.seed][PubOf(BindingOf(a)) := a.publicKey] else d
  }

  class KeyDir {
    var files: Dir

    constructor ()
      ensures files == map[]
    {
      files := map[];
    }

    /** Writes a key pair, or refuses and writes nothing. */
    method GenerateKey(a: Wanted) returns (made: bool)
      modifies this
      ensures files == After(old(files), a) && made == Makes(old(files), a)
    {
      var keyID := if a.keyID == "" then a.fingerprint else a.keyID;
      var producer := if a.producer == "" then keyID else a.producer;
      var badKey := ValidateKeyIdent(keyID);
      var badProducer := ValidateKeyIdent(producer);
      if badKey.Some? || badProducer.Some? {
        return false;
      }
      var pubBase := keyID + PUB;
      if producer != keyID {
        pubBase := producer + DELIMITER + keyID + PUB;
      }
      if !a.force && (keyID + KEY in files || pubBase in files) {
        return false;
      }
      files := files[keyID + KEY := a.seed];
      files := files[pubBase := a.publicKey];
      return true;
    }
  }

  function AfterAll(wants: seq<Wanted>): Dir {
    if wants == [] then map[] else After(AfterAll(wants[..|wants| - 1]), wants[|wants| - 1])
  }

  // ---- what a key directory holds ------------------------------------------------------------------

  predicate EndsWith(s: string, suffix: string) {
    |suffix| <= |s| && s[|s| - |suffix|..] == suffix
  }

  /** The directory trusts this key id for this producer. */
  predicate Trusts(d: Dir, b: Binding) {
    Valid(b) && PubOf(b) in d
  }

  /** A public key's file, with its private key beside it, or a private key's. */
  ghost predicate Written(d: Dir, n: string) {
    if EndsWith(n, PUB) then exists b :: Valid(b) && n == PubOf(b) && b.keyID + KEY in d
    else |n| >= 4
  }

  ghost predicate AllWritten(d: Dir) {
    forall n | n in d :: Written(d, n)
  }

  /** No key id is trusted for two producers. */
  ghost predicate OnePerKey(d: Dir) {
    forall b, b' | Trusts(d, b) && Trusts(d, b') && b.keyID == b'.keyID :: b == b'
  }

  /** This run makes a key under an id another producer has. */
  ghost predicate Reuses(d: Dir, a: Wanted) {
    Makes(d, a) && exists b :: Trusts(d, b) && b.keyID == KeyIDOf(a) && b != BindingOf(a)
  }

  lemma {:induction false} PubNotKey(b: Binding, keyID: string)
    requires Valid(b)
    ensures EndsWith(PubOf(b), PUB) && !EndsWith(keyID + KEY, PUB) && PubOf(b) != keyID + KEY
  {
    var n, m := PubOf(b), keyID + KEY;
    assert n[|n| - 4..] == PUB && m[|m| - 4..] == KEY;
    assert PUB[1] == 'p' && KEY[1] == 'k';
  }

  lemma {:induction false} OneFileEach(b: Binding, b': Binding)
    requires Valid(b) && Valid(b') && PubOf(b) == PubOf(b')
    ensures b == b'
  {
    KeyFilesDistinct(b.producer, b.keyID, b'.producer, b'.keyID);
  }

  lemma {:induction false} AfterWritten(d: Dir, a: Wanted)
    requires AllWritten(d)
    ensures AllWritten(After(d, a))
  {
    if Makes(d, a) {
      var d' := After(d, a);
      PubNotKey(BindingOf(a), KeyIDOf(a));
      forall n | n in d' ensures Written(d', n) {
        if n == PubOf(BindingOf(a)) {
          assert BindingOf(a).keyID + KEY in d';
        } else if n != KeyIDOf(a) + KEY {
          assert Written(d, n);
        }
      }
    }
  }

  lemma {:induction false} AllAfterWritten(wants: seq<Wanted>)
    ensures AllWritten(AfterAll(wants))
  {
    if wants != [] {
      AllAfterWritten(wants[..|wants| - 1]);
      AfterWritten(AfterAll(wants[..|wants| - 1]), wants[|wants| - 1]);
    }
  }

  lemma {:induction false} AfterTrusts(d: Dir, a: Wanted, b: Binding)
    ensures Trusts(After(d, a), b) <==> Trusts(d, b) || (Makes(d, a) && b == BindingOf(a))
  {
    if Makes(d, a) && Valid(b) {
      PubNotKey(b, KeyIDOf(a));
      if PubOf(b) == PubOf(BindingOf(a)) {
        OneFileEach(b, BindingOf(a));
      }
    }
  }

  lemma {:induction false} AfterOnePerKey(d: Dir, a: Wanted)
    ensures OnePerKey(After(d, a)) <==> OnePerKey(d) && !Reuses(d, a)
  {
    var d' := After(d, a);
    forall b ensures Trusts(d', b) <==> Trusts(d, b) || (Makes(d, a) && b == BindingOf(a)) {
      AfterTrusts(d, a, b);
    }
    if Reuses(d, a) {
      var b :| Trusts(d, b) && b.keyID == KeyIDOf(a) && b != BindingOf(a);
      assert Trusts(d', b) && Trusts(d', BindingOf(a));
    }
  }

  /** Only a forced run can do so: the private key's file is in the way. */
  lemma {:induction false} ReuseIsForced(d: Dir, a: Wanted)
    requires AllWritten(d) && Reuses(d, a)
    ensures a.force
  {
    var b :| Trusts(d, b) && b.keyID == KeyIDOf(a) && b != BindingOf(a);
    PubNotKey(b, "");
    assert Written(d, PubOf(b));
    var c :| Valid(c) && PubOf(b) == PubOf(c) && c.keyID + KEY in d;
    OneFileEach(b, c);
  }

  ghost predicate ReusesAt(wants: seq<Wanted>, i: nat)
    requires i < |wants|
  {
    Reuses(AfterAll(wants[..i]), wants[i])
  }

  lemma {:induction false} ReusesBefore(wants: seq<Wanted>, i: nat)
    requires i < |wants| - 1
    ensures ReusesAt(wants[..|wants| - 1], i) <==> ReusesAt(wants, i)
  {
    assert wants[..|wants| - 1][..i] == wants[..i];
  }

  /** However keys were generated, no id is trusted for two producers if and only if no run took an id another producer had. */
  lemma {:induction false} OnePerKeyIff(wants: seq<Wanted>)
    ensures OnePerKey(AfterAll(wants)) <==> forall i | 0 <= i < |wants| :: !ReusesAt(wants, i)
  {
    if wants != [] {
      var n := |wants| - 1;
      OnePerKeyIff(wants[..n]);
      AfterOnePerKey(AfterAll(wants[..n]), wants[n]);
      forall i | 0 <= i < n ensures ReusesAt(wants[..n], i) <==> ReusesAt(wants, i) {
        ReusesBefore(wants, i);
      }
      assert ReusesAt(wants, n) <==> Reuses(AfterAll(wants[..n]), wants[n]);
    }
  }

  /** So without force none is. */
  lemma {:induction false} UnforcedIsOnePerKey(wants: seq<Wanted>)
    requires forall i | 0 <= i < |wants| :: !wants[i].force
    ensures OnePerKey(AfterAll(wants))
  {
    forall i | 0 <= i < |wants| ensures !ReusesAt(wants, i) {
      AllAfterWritten(wants[..i]);
      if ReusesAt(wants, i) {
        ReuseIsForced(AfterAll(wants[..i]), wants[i]);
      }
    }
    OnePerKeyIff(wants);
  }

  // ---- who made what is there --------------------------------------------------------------------------

  /** The key id asked for, or the key's fingerprint; the producer asked for, or the key id. */
  predicate Names(a: Wanted, b: Binding) {
    && b.keyID == (if a.keyID != "" then a.keyID else a.fingerprint)
    && b.producer == (if a.producer != "" then a.producer else b.keyID)
  }

  /** The `i`th run made its key. */
  predicate MadeAt(wants: seq<Wanted>, i: int) {
    0 <= i < |wants| && Makes(AfterAll(wants[..i]), wants[i])
  }

  predicate MadeFor(wants: seq<Wanted>, i: int, b: Binding) {
    MadeAt(wants, i) && Names(wants[i], b)
  }

  predicate MadeId(wants: seq<Wanted>, i: int, id: string) {
    MadeAt(wants, i) && KeyIDOf(wants[i]) == id
  }

  /** The last run that made this key; the last that made a key of this id. */
  ghost predicate LastFor(wants: seq<Wanted>, i: int, b: Binding) {
    MadeFor(wants, i, b) && forall j | i < j :: !MadeFor(wants, j, b)
  }

  ghost predicate LastId(wants: seq<Wanted>, i: int, id: string) {
    MadeId(wants, i, id) && forall j | i < j :: !MadeId(wants, j, id)
  }

  lemma {:induction false} MadeBefore(wants: seq<Wanted>, n: nat)
    requires n <= |wants|
    ensures forall j | 0 <= j < n :: MadeAt(wants[..n], j) == MadeAt(wants, j)
  {
    forall j | 0 <= j < n ensures MadeAt(wants[..n], j) == MadeAt(wants, j) {
      assert wants[..n][..j] == wants[..j];
    }
  }

  lemma {:induction false} AfterPrivate(d: Dir, a: Wanted, id: string)
    ensures id + KEY in After(d, a) <==> id + KEY in d || (Makes(d, a) && KeyIDOf(a) == id)
    ensures id + KEY in After(d, a) ==> After(d, a)[id + KEY] == if Makes(d, a) && KeyIDOf(a) == id then a.seed else d[id + KEY]
  {
    if Makes(d, a) {
      PubNotKey(BindingOf(a), id);
      if id + KEY == KeyIDOf(a) + KEY {
        OneSuffix(id, KeyIDOf(a), KEY);
      }
    }
  }

  /** A private key is there if and only if some run made a key of its id. */
  lemma {:induction false} PrivateKeyIff(wants: seq<Wanted>, id: string)
    ensures id + ".key" in AfterAll(wants) <==> exists i :: MadeId(wants, i, id)
  {
    if wants != [] {
      var n := |wants| - 1;
      var before := wants[..n];
      MadeBefore(wants, n);
      PrivateKeyIff(before, id);
      AfterPrivate(AfterAll(before), wants[n], id);
      assert MadeId(wants, n, id) <==> Makes(AfterAll(before), wants[n]) && KeyIDOf(wants[n]) == id;
      if i :| MadeId(before, i, id) {
        assert MadeId(wants, i, id);
      }
      if i :| MadeId(wants, i, id) {
        assert i < n ==> MadeId(before, i, id);
      }
    }
  }

  /** And it is the one the last such run drew. */
  lemma {:induction false} PrivateKeyIsLast(wants: seq<Wanted>, id: string, i: nat)
    requires LastId(wants, i, id)
    ensures id + ".key" in AfterAll(wants) && AfterAll(wants)[id + ".key"] == wants[i].seed
  {
    var n := |wants| - 1;
    var before := wants[..n];
    AfterPrivate(AfterAll(before), wants[n], id);
    if i < n {
      MadeBefore(wants, n);
      assert !MadeId(wants, n, id);
      forall j | i < j ensures !MadeId(before, j, id) {
        assert !MadeId(wants, j, id);
      }
      PrivateKeyIsLast(before, id, i);
    }
  }

  lemma {:induction false} OneSuffix(a: string, b: string, suffix: string)
    requires a + suffix == b + suffix
    ensures a == b
  {
    assert |a| == |b| && (a + suffix)[..|a|] == a && (b + suffix)[..|b|] == b;
  }

  /** A public key is trusted if and only if some run made it. */
  lemma {:induction false} TrustedIff(wants: seq<Wanted>, b: Binding)
    ensures Trusts(AfterAll(wants), b) <==> exists i :: MadeFor(wants, i, b)
  {
    if wants != [] {
      var n := |wants| - 1;
      var before := wants[..n];
      MadeBefore(wants, n);
      TrustedIff(before, b);
      AfterTrusts(AfterAll(before), wants[n], b);
      assert MadeFor(wants, n, b) <==> Makes(AfterAll(before), wants[n]) && b == BindingOf(wants[n]);
      if i :| MadeFor(before, i, b) {
        assert MadeFor(wants, i, b);
      }
      if i :| MadeFor(wants, i, b) {
        assert i < n ==> MadeFor(before, i, b);
      }
    }
  }

  /** And it is the one the last such run drew. */
  lemma {:induction false} PublicKeyIsLast(wants: seq<Wanted>, b: Binding, i: nat)
    requires LastFor(wants, i, b)
    ensures PubOf(b) in AfterAll(wants) && AfterAll(wants)[PubOf(b)] == wants[i].publicKey
  {
    var n := |wants| - 1;
    var before := wants[..n];
    if i < n {
      MadeBefore(wants, n);
      assert !MadeFor(wants, n, b);
      forall j | i < j ensures !MadeFor(before, j, b) {
        assert !MadeFor(wants, j, b);
      }
      assert MadeFor(before, i, b);
      TrustedIff(before, b);
      PublicKeyIsLast(before, b, i);
      KeptFile(AfterAll(before), wants[n], b);
    }
  }

  lemma {:induction false} KeptFile(d: Dir, a: Wanted, b: Binding)
    requires Trusts(d, b) && !(Makes(d, a) && b == BindingOf(a))
    ensures PubOf(b) in After(d, a) && After(d, a)[PubOf(b)] == d[PubOf(b)]
  {
    if Makes(d, a) {
      PubNotKey(b, KeyIDOf(a));
      if PubOf(b) == PubOf(BindingOf(a)) {
        OneFileEach(b, BindingOf(a));
      }
    }
  }

  /** A run makes its key if and only if its names are accepted and it is forced or no run made one of its id before. */
  lemma {:induction false} GeneratesIff(wants: seq<Wanted>, i: nat, b: Binding)
    requires i < |wants| && Names(wants[i], b)
    ensures MadeAt(wants, i) <==>
            ValidIdent(b.producer) && ValidIdent(b.keyID) && (wants[i].force || forall j | 0 <= j < i :: !MadeId(wants, j, b.keyID))
  {
    var before := wants[..i];
    MadeBefore(wants, i);
    assert b == BindingOf(wants[i]);
    PrivateKeyIff(before, b.keyID);
    assert forall j | 0 <= j < i :: MadeId(before, j, b.keyID) == MadeId(wants, j, b.keyID);
    if j :| MadeId(before, j, b.keyID) {
      assert MadeId(wants, j, b.keyID);
    }
    if Valid(b) && PubOf(b) in AfterAll(before) {
      TrustedIff(before, b);
      var j :| MadeFor(before, j, b);
      assert MadeId(before, j, b.keyID);
    }
  }

  // ---- the store it makes -----------------------------------------------------------------------------

  ghost predicate Enumerates(names: seq<string>, d: Dir) {
    && (forall i, j | 0 <= i < j < |names| :: names[i] != names[j])
    && forall n :: n in names <==> n in d
  }

  /** A directory as the loader reads it. */
  function Listed(path: string, d: Dir, names: seq<string>): (files: seq<File>)
    requires Has(d, names)
    ensures |files| == |names| && forall i | 0 <= i < |names| :: files[i] == FileOf(path, d, names[i])
  {
    seq(|names|, i requires 0 <= i < |names| => FileOf(path, d, names[i]))
  }

  predicate Has(d: Dir, names: seq<string>) {
    forall i | 0 <= i < |names| :: names[i] in d
  }

  function FileOf(path: string, d: Dir, n: string): File
    requires n in d
  {
    File(path + n, false, Some(d[n]))
  }

  function PubNames(names: seq<string>): (r: seq<string>)
    ensures forall n :: n in r <==> n in names && EndsWith(n, PUB)
    ensures (forall i, j | 0 <= i < j < |names| :: names[i] != names[j]) ==> forall i, j | 0 <= i < j < |r| :: r[i] != r[j]
  {
    if names == [] then []
    else
      var init, last := names[..|names| - 1], names[|names| - 1];
      assert names == init + [last] && forall i | 0 <= i < |init| :: init[i] == names[i];
      if EndsWith(last, PUB) then PubNames(init) + [last] else PubNames(init)
  }

  lemma {:induction false} EndsAlike(path: string, n: string)
    requires |n| >= 4
    ensures EndsWith(path + n, PUB) <==> EndsWith(n, PUB)
  {
    assert (path + n)[|path + n| - 4..] == n[|n| - 4..];
  }

  lemma {:induction false} ListedOneMore(path: string, d: Dir, init: seq<string>, n: string)
    requires Has(d, init) && n in d
    ensures Has(d, init + [n]) && Listed(path, d, init + [n]) == Listed(path, d, init) + [FileOf(path, d, n)]
  {
  }

  lemma {:induction false} PickedOneMore(files: seq<File>, f: File)
    ensures PickedFiles(files + [f]) == PickedFiles(files) + if Picked(f) then [f] else []
  {
    assert (files + [f])[..|files|] == files;
  }

  lemma {:induction false} PubsOneMore(init: seq<string>, n: string)
    ensures PubNames(init + [n]) == PubNames(init) + if EndsWith(n, PUB) then [n] else []
  {
    assert (init + [n])[..|init|] == init;
  }

  lemma {:induction false} PickedStep(path: string, d: Dir, init: seq<string>, pubs: seq<string>, n: string, more: seq<string>)
    requires Has(d, init) && Has(d, pubs) && n in d && |n| >= 4 && more == (if EndsWith(n, PUB) then [n] else [])
    requires PickedFiles(Listed(path, d, init)) == Listed(path, d, pubs)
    ensures Has(d, init + [n]) && Has(d, pubs + more) && PickedFiles(Listed(path, d, init + [n])) == Listed(path, d, pubs + more)
  {
    EndsAlike(path, n);
    ListedOneMore(path, d, init, n);
    PickedOneMore(Listed(path, d, init), FileOf(path, d, n));
    if EndsWith(n, PUB) {
      ListedOneMore(path, d, pubs, n);
    } else {
      assert pubs + more == pubs;
    }
  }

  lemma {:induction false} PickedAreListed(path: string, d: Dir, names: seq<string>)
    requires Has(d, names) && forall i | 0 <= i < |names| :: |names[i]| >= 4
    ensures Has(d, PubNames(names)) && PickedFiles(Listed(path, d, names)) == Listed(path, d, PubNames(names))
  {
    if names != [] {
      var init, last := names[..|names| - 1], names[|names| - 1];
      assert names == init + [last];
      PickedAreListed(path, d, init);
      PickedStep(path, d, init, PubNames(init), last, if EndsWith(last, PUB) then [last] else []);
      PubsOneMore(init, last);
    }
  }

  /** The public keys' files of a directory. */
  ghost predicate PubsOf(pubs: seq<string>, d: Dir) {
    Has(d, pubs) && forall n :: n in pubs <==> n in d && EndsWith(n, PUB)
  }

  /** What the loader reads of the directory's public keys. */
  lemma {:induction false} NamesRead(path: string, d: Dir, pubs: seq<string>, i: nat) returns (b: Binding)
    requires Directory(path) && AllWritten(d) && i < |pubs| && PubsOf(pubs, d)
    ensures Trusts(d, b) && pubs[i] == PubOf(b) && AllLoad(Listed(path, d, pubs))
    ensures Keys(Listed(path, d, pubs))[i] == TrustKey(b, d[PubOf(b)])
  {
    assert pubs[i] in pubs && Written(d, pubs[i]);
    b :| Valid(b) && pubs[i] == PubOf(b) && b.keyID + KEY in d;
    KeyFileReads(path, b.producer, b.keyID);
  }

  lemma {:induction false} ReadDistinct(path: string, d: Dir, pubs: seq<string>)
    requires Directory(path) && AllWritten(d) && forall i, j | 0 <= i < j < |pubs| :: pubs[i] != pubs[j]
    requires PubsOf(pubs, d)
    ensures AllLoad(Listed(path, d, pubs)) && (DistinctKeys(Keys(Listed(path, d, pubs))) <==> OnePerKey(d))
  {
    var ks := Keys(Listed(path, d, pubs));
    if OnePerKey(d) {
      forall i, j | 0 <= i < j < |ks| ensures ks[i].binding.keyID != ks[j].binding.keyID {
        var b := NamesRead(path, d, pubs, i);
        var c := NamesRead(path, d, pubs, j);
      }
    }
    if DistinctKeys(ks) {
      forall b, c | Trusts(d, b) && Trusts(d, c) && b.keyID == c.keyID ensures b == c {
        var i := FindsPub(path, d, pubs, b);
        var j := FindsPub(path, d, pubs, c);
      }
    }
  }

  lemma {:induction false} FindsPub(path: string, d: Dir, pubs: seq<string>, b: Binding) returns (i: nat)
    requires Directory(path) && AllWritten(d) && Trusts(d, b)
    requires PubsOf(pubs, d)
    ensures i < |pubs| && AllLoad(Listed(path, d, pubs)) && Keys(Listed(path, d, pubs))[i] == TrustKey(b, d[PubOf(b)])
  {
    PubNotKey(b, "");
    i :| 0 <= i < |pubs| && pubs[i] == PubOf(b);
    var c := NamesRead(path, d, pubs, i);
    OneFileEach(b, c);
  }

  /** The store is the directory's: each key id with the producer and the public key last written for it, and nothing else. */
  ghost predicate IsStoreOf(ts: TrustStore, d: Dir) {
    && (forall b | Trusts(d, b) :: b.keyID in ts && ts[b.keyID] == TrustEntry(d[PubOf(b)], b.producer))
    && (forall id | id in ts :: exists b :: Trusts(d, b) && b.keyID == id)
  }

  /**
   A directory filled by any runs of key generation loads if and only if a key was made and no id is
   trusted for two producers, in whatever order it is listed.
   */
  method TrustGeneratedKeys(path: string, d: Dir, names: seq<string>, ghost wants: seq<Wanted>) returns (r: Result<TrustStore, string>)
    requires Directory(path) && d == AfterAll(wants) && Enumerates(names, d)
    ensures r.Success? <==> (exists b :: Trusts(d, b)) && OnePerKey(d)
    ensures r.Success? ==> IsStoreOf(r.value, d)
    ensures r.Success? ==> forall b, i | LastFor(wants, i, b) :: b.keyID in r.value && r.value[b.keyID] == TrustEntry(wants[i].publicKey, b.producer)
  {
    AllAfterWritten(wants);
    LongNames(d, names);
    var pubs := PubNames(names);
    PickedAreListed(path, d, names);
    ReadDistinct(path, d, pubs);
    SomeTrusted(path, d, pubs);
    r := LoadTrustStore(Listing(Listed(path, d, names)));
    if r.Success? {
      StoreIs(path, d, pubs, r.value);
      forall b, i | LastFor(wants, i, b) ensures b.keyID in r.value && r.value[b.keyID] == TrustEntry(wants[i].publicKey, b.producer) {
        TrustedIff(wants, b);
        PublicKeyIsLast(wants, b, i);
      }
    }
  }

  lemma {:induction false} LongNames(d: Dir, names: seq<string>)
    requires AllWritten(d) && Enumerates(names, d)
    ensures forall i | 0 <= i < |names| :: names[i] in d && |names[i]| >= 4
  {
    forall i | 0 <= i < |names| ensures names[i] in d && |names[i]| >= 4 {
      assert names[i] in names && Written(d, names[i]);
    }
  }

  lemma {:induction false} SomeTrusted(path: string, d: Dir, pubs: seq<string>)
    requires Directory(path) && AllWritten(d) && PubsOf(pubs, d)
    ensures pubs != [] <==> exists b :: Trusts(d, b)
  {
    if pubs != [] {
      var b := NamesRead(path, d, pubs, 0);
    }
    if b :| Trusts(d, b) {
      PubNotKey(b, "");
      assert PubOf(b) in pubs;
    }
  }

  lemma {:induction false} StoreHas(path: string, d: Dir, pubs: seq<string>, ts: TrustStore, b: Binding)
    requires Directory(path) && AllWritten(d) && PubsOf(pubs, d) && Trusts(d, b)
    requires AllLoad(Listed(path, d, pubs)) && Binds(ts, Keys(Listed(path, d, pubs)))
    ensures b.keyID in ts && ts[b.keyID] == TrustEntry(d[PubOf(b)], b.producer)
  {
    var i := FindsPub(path, d, pubs, b);
    assert Keys(Listed(path, d, pubs))[i] in Keys(Listed(path, d, pubs));
  }

  lemma {:induction false} StoreComesFrom(path: string, d: Dir, pubs: seq<string>, ts: TrustStore, id: string) returns (b: Binding)
    requires Directory(path) && AllWritten(d) && PubsOf(pubs, d) && id in ts
    requires AllLoad(Listed(path, d, pubs)) && Binds(ts, Keys(Listed(path, d, pubs)))
    ensures Trusts(d, b) && b.keyID == id
  {
    var ks := Keys(Listed(path, d, pubs));
    var k :| k in ks && k.binding.keyID == id;
    var i :| 0 <= i < |ks| && ks[i] == k;
    b := NamesRead(path, d, pubs, i);
  }

  lemma {:induction false} StoreIs(path: string, d: Dir, pubs: seq<string>, ts: TrustStore)
    requires Directory(path) && AllWritten(d) && PubsOf(pubs, d)
    requires AllLoad(Listed(path, d, pubs)) && Binds(ts, Keys(Listed(path, d, pubs)))
    ensures IsStoreOf(ts, d)
  {
    forall b | Trusts(d, b) ensures b.keyID in ts && ts[b.keyID] == TrustEntry(d[PubOf(b)], b.producer) {
      StoreHas(path, d, pubs, ts, b);
    }
    forall id | id in ts ensures exists b :: Trusts(d, b) && b.keyID == id {
      var b := StoreComesFrom(path, d, pubs, ts, id);
    }
  }
}
