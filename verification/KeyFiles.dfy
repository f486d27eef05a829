/**
 The filename that binds a public key to its producer, as it is written and as it is read
 (internal/app/evidence.go:59-86, 110-128, 384-435).
 */
module KeyFiles {
  import opened Basics
  import opened Text

  // ---- the grammar of an identifier --------------------------------------------------

  datatype IdentError = Empty | TooLong | DotDot | BadCharacter(at: nat)

  predicate Alphanumeric(c: char) {
    'a' <= c <= 'z' || 'A' <= c <= 'Z' || '0' <= c <= '9'
  }

  predicate AllowedAt(s: string, i: nat)
    requires i < |s|
  {
    Alphanumeric(s[i]) || ((s[i] == '.' || s[i] == '-') && i > 0)
  }

  predicate HasDotDot(s: string) {
    exists i | 0 <= i < |s| - 1 :: s[i] == '.' && s[i + 1] == '.'
  }

  predicate ValidIdent(s: string) {
    0 < |s| <= 64 && !HasDotDot(s) && forall i | 0 <= i < |s| :: AllowedAt(s, i)
  }

  /** One to 64 letters, digits, dots and hyphens, no dot or hyphen first and no two dots in a row. */
  predicate KeepsRules(s: string) {
    && 1 <= |s| <= 64 && s[0] != '.' && s[0] != '-'
    && (forall i | 0 < i < |s| && s[i] == '.' :: s[i - 1] != '.')
    && forall c | c in s :: 'a' <= c <= 'z' || 'A' <= c <= 'Z' || '0' <= c <= '9' || c == '.' || c == '-'
  }

  lemma {:induction false} IdentRules(s: string)
    ensures ValidIdent(s) <==> KeepsRules(s)
    ensures HasDotDot(s) <==> exists i | 0 < i < |s| :: s[i - 1] == '.' == s[i]
  {
    forall i | 0 < i < |s| ensures s[i - 1] == '.' == s[i] ==> HasDotDot(s) {
      var k := i - 1;
      assert s[k + 1] == s[i];
    }
    if i :| 0 <= i < |s| - 1 && s[i] == '.' && s[i + 1] == '.' {
      var k := i + 1;
      assert s[k - 1] == '.' == s[k];
    }
    if ValidIdent(s) {
      assert AllowedAt(s, 0);
      forall c | c in s ensures Alphanumeric(c) || c == '.' || c == '-' {
        var i :| 0 <= i < |s| && s[i] == c;
        assert AllowedAt(s, i);
      }
    }
    if KeepsRules(s) {
      forall i | 0 <= i < |s| ensures AllowedAt(s, i) {
        assert s[i] in s;
      }
    }
  }

  /** Nothing when `s` may name a key or a producer, else the first rule it breaks. */
  method ValidateKeyIdent(s: string) returns (err: Option<IdentError>)
    ensures err.None? <==> ValidIdent(s)
    ensures err.None? <==> KeepsRules(s)
    ensures (err == Some(Empty) <==> |s| == 0) && (err == Some(TooLong) <==> |s| > 64)
    ensures err == Some(DotDot) <==> 0 < |s| <= 64 && exists i | 0 < i < |s| :: s[i - 1] == '.' == s[i]
    ensures err.Some? && err.value.BadCharacter? ==>
              err.value.at < |s| && !AllowedAt(s, err.value.at) && forall i | 0 <= i < err.value.at :: AllowedAt(s, i)
  {
    IdentRules(s);
    if s == "" {
      return Some(Empty);
    }
    if |s| > 64 {
      return Some(TooLong);
    }
    if HasDotDot(s) {
      return Some(DotDot);
    }
    for i := 0 to |s|
      invariant forall k | 0 <= k < i :: AllowedAt(s, k)
    {
      if !AllowedAt(s, i) {
        return Some(BadCharacter(i));
      }
    }
    return None;
  }

  // ---- writing --------------------------------------------------------------------------

  const PUB := ".pub"
  const DELIMITER := "__"

  function PubBase(producer: string, keyID: string): string {
    if producer != keyID then producer + DELIMITER + keyID + PUB else keyID + PUB
  }

  // ---- reading --------------------------------------------------------------------------

  /** The last element of a path that does not end in a slash. */
  function BaseName(path: string): string {
    if path == "" || path[|path| - 1] == '/' then ""
    else BaseName(path[..|path| - 1]) + [path[|path| - 1]]
  }

  /** The suffix from the last dot of the last element. */
  function Ext(path: string): string {
    if path == "" || path[|path| - 1] == '/' then ""
    else if path[|path| - 1] == '.' then "."
    else
      var e := Ext(path[..|path| - 1]);
      if e == "" then "" else e + [path[|path| - 1]]
  }

  function TrimSuffix(s: string, suffix: string): string {
    if |suffix| <= |s| && s[|s| - |suffix|..] == suffix then s[..|s| - |suffix|] else s
  }

  /** The parts before and after the first delimiter. */
  function Cut(s: string): Option<(string, string)> {
    if |s| < 2 then None
    else if s[0] == '_' && s[1] == '_' then Some(("", s[2..]))
    else match Cut(s[1..])
         case None => None
         case Some((before, after)) => Some(([s[0]] + before, after))
  }

  datatype Binding = Binding(producer: string, keyID: string)

  /** The producer and key id a trust file names. */
  function Parse(path: string): Binding {
    var base := TrimSuffix(BaseName(path), Ext(path));
    match Cut(base)
    case None => Binding(base, base)
    case Some((producer, keyID)) => Binding(producer, keyID)
  }

  // ---- the round trip --------------------------------------------------------------------

  predicate Directory(dir: string) {
    dir == "" || dir[|dir| - 1] == '/'
  }

  lemma {:induction false} BaseNameOf(dir: string, name: string)
    requires Directory(dir) && Free(name, '/')
    ensures BaseName(dir + name) == name
  {
    var path := dir + name;
    if name == "" {
      assert path == dir;
    } else {
      var l := |name| - 1;
      BaseNameOf(dir, name[..l]);
      assert path[..|path| - 1] == dir + name[..l];
      assert name == name[..l] + [name[l]];
    }
  }

  /** The extension of a name that ends in a dot and more without dots. */
  lemma {:induction false} ExtOf(stem: string, tail: string)
    requires Free(tail, '/') && Free(tail, '.')
    ensures Ext(stem + "." + tail) == "." + tail
  {
    var path := stem + "." + tail;
    if tail == "" {
      assert path[|path| - 1] == '.';
    } else {
      var l := |tail| - 1;
      ExtOf(stem, tail[..l]);
      assert path[..|path| - 1] == stem + "." + tail[..l];
      assert path[|path| - 1] == tail[l] && tail == tail[..l] + [tail[l]];
    }
  }

  lemma {:induction false} CutNothing(s: string)
    requires Free(s, '_')
    ensures Cut(s) == None
  {
    if |s| >= 2 {
      CutNothing(s[1..]);
    }
  }

  lemma {:induction false} CutHere(before: string, after: string)
    requires Free(before, '_')
    ensures Cut(before + DELIMITER + after) == Some((before, after))
  {
    var s := before + DELIMITER + after;
    if before == "" {
      assert s[2..] == after;
    } else {
      CutHere(before[1..], after);
      assert s[1..] == before[1..] + DELIMITER + after;
      assert before == [before[0]] + before[1..];
    }
  }

  lemma {:induction false} IdentIsPlain(s: string)
    requires ValidIdent(s)
    ensures Free(s, '/') && Free(s, '_')
  {
    forall i | 0 <= i < |s|
      ensures s[i] != '/' && s[i] != '_'
    {
      assert AllowedAt(s, i);
    }
  }

  lemma {:induction false} StemReads(dir: string, stem: string)
    requires Directory(dir) && Free(stem, '/')
    ensures TrimSuffix(BaseName(dir + (stem + PUB)), Ext(dir + (stem + PUB))) == stem
  {
    var name := stem + PUB;
    BaseNameOf(dir, name);
    assert dir + name == (dir + stem) + "." + "pub";
    ExtOf(dir + stem, "pub");
    assert name[|name| - 4..] == PUB && name[..|name| - 4] == stem;
  }

  /** Reading the file a key was written to gives the producer and key id it was written for. */
  lemma {:induction false} KeyFileReads(dir: string, producer: string, keyID: string)
    requires Directory(dir) && ValidIdent(producer) && ValidIdent(keyID)
    ensures PubBase(producer, keyID) == (if producer == keyID then keyID else producer + "__" + keyID) + ".pub"
    ensures Parse(dir + PubBase(producer, keyID)) == Binding(producer, keyID)
  {
    IdentIsPlain(producer);
    IdentIsPlain(keyID);
    if producer != keyID {
      var stem := producer + DELIMITER + keyID;
      StemReads(dir, stem);
      CutHere(producer, keyID);
    } else {
      StemReads(dir, keyID);
      CutNothing(keyID);
    }
  }

  lemma {:induction false} KeyFilesDistinct(p: string, k: string, p': string, k': string)
    requires ValidIdent(p) && ValidIdent(k) && ValidIdent(p') && ValidIdent(k')
    requires PubBase(p, k) == PubBase(p', k')
    ensures p == p' && k == k'
  {
    KeyFileReads("", p, k);
    KeyFileReads("", p', k');
    assert "" + PubBase(p, k) == PubBase(p, k);
  }

  // ---- the trust store --------------------------------------------------------------------

  datatype TrustEntry = TrustEntry(publicKey: string, producer: string)

  type TrustStore = map<string, TrustEntry>

  /** A public key, with the binding its filename states. */
  datatype TrustKey = TrustKey(binding: Binding, publicKey: string)

  /** A file as the loader meets it; `key` is the public key it holds, if it holds one. */
  datatype File = File(path: string, isDir: bool, key: Option<string>)

  function KeyOf(f: File): TrustKey
    requires f.key.Some?
  {
    TrustKey(Parse(f.path), f.key.value)
  }

  /** `ts` binds exactly the key ids of `ks`, each to its own producer and public key. */
  ghost predicate Binds(ts: TrustStore, ks: seq<TrustKey>) {
    && (forall id | id in ts :: exists k :: k in ks && k.binding.keyID == id)
    && (forall k | k in ks :: k.binding.keyID in ts && ts[k.binding.keyID] == TrustEntry(k.publicKey, k.binding.producer))
  }

  predicate DistinctKeys(ks: seq<TrustKey>) {
    forall i, j | 0 <= i < j < |ks| :: ks[i].binding.keyID != ks[j].binding.keyID
  }

  /** What the loader takes from a directory. */
  predicate Picked(f: File) {
    !f.isDir && |f.path| >= |PUB| && f.path[|f.path| - |PUB|..] == PUB
  }

  /** The files taken, in order. */
  function PickedFiles(files: seq<File>): seq<File> {
    if files == [] then [] else PickedFiles(files[..|files| - 1]) + if Picked(files[|files| - 1]) then [files[|files| - 1]] else []
  }

  predicate AllLoad(files: seq<File>) {
    forall i | 0 <= i < |files| :: files[i].key.Some?
  }

  function Keys(files: seq<File>): (ks: seq<TrustKey>)
    requires AllLoad(files)
    ensures |ks| == |files| && forall i | 0 <= i < |files| :: ks[i] == KeyOf(files[i])
  {
    seq(|files|, i requires 0 <= i < |files| => KeyOf(files[i]))
  }

  /** A store that binds exactly some keys comes to bind exactly one more, or that one's key id is a repeat. */
  method AddTrustKey(ts: TrustStore, f: File) returns (r: Result<TrustStore, string>)
    ensures f.key.None? ==> r.Failure?
    ensures f.key.Some? ==> forall ks | Binds(ts, ks) && DistinctKeys(ks) ::
              && (r.Success? <==> DistinctKeys(ks + [KeyOf(f)]))
              && (r.Success? ==> Binds(r.value, ks + [KeyOf(f)]))
  {
    if f.key.None? {
      return Failure(f.path);
    }
    var k := KeyOf(f);
    if k.binding.keyID in ts {
      forall ks | Binds(ts, ks) ensures !DistinctKeys(ks + [k]) {
        RepeatedKey(ts, ks, k);
      }
      return Failure(k.binding.keyID);
    }
    forall ks | Binds(ts, ks) && DistinctKeys(ks)
      ensures DistinctKeys(ks + [k]) && Binds(ts[k.binding.keyID := TrustEntry(k.publicKey, k.binding.producer)], ks + [k])
    {
      BindsOneMore(ts, ks, k);
    }
    return Success(ts[k.binding.keyID := TrustEntry(k.publicKey, k.binding.producer)]);
  }

  lemma {:induction false} RepeatedKey(ts: TrustStore, ks: seq<TrustKey>, k: TrustKey)
    requires Binds(ts, ks) && k.binding.keyID in ts
    ensures !DistinctKeys(ks + [k])
  {
    var x :| x in ks && x.binding.keyID == k.binding.keyID;
    var i :| 0 <= i < |ks| && ks[i] == x;
    assert (ks + [k])[i] == x && (ks + [k])[|ks|] == k;
  }

  lemma {:induction false} BindsOneMore(ts: TrustStore, ks: seq<TrustKey>, k: TrustKey)
    requires Binds(ts, ks) && DistinctKeys(ks) && k.binding.keyID !in ts
    ensures Binds(ts[k.binding.keyID := TrustEntry(k.publicKey, k.binding.producer)], ks + [k])
    ensures DistinctKeys(ks + [k])
  {
    var ts', ks' := ts[k.binding.keyID := TrustEntry(k.publicKey, k.binding.producer)], ks + [k];
    forall id | id in ts' ensures exists x :: x in ks' && x.binding.keyID == id {
      if id == k.binding.keyID {
        assert k in ks';
      } else {
        var x :| x in ks && x.binding.keyID == id;
        assert x in ks';
      }
    }
    forall i, j | 0 <= i < j < |ks'| ensures ks'[i].binding.keyID != ks'[j].binding.keyID {
      assert ks'[i] in ks;
    }
  }

  /** When these files make a trust store: there is one, each holds a key, and no key id comes twice. */
  predicate Loads(files: seq<File>) {
    files != [] && AllLoad(files) && DistinctKeys(Keys(files))
  }

  /** Where trusted keys are read from: a directory, or one public key file. */
  datatype Store = Listing(files: seq<File>) | Single(file: File)

  function TakenFrom(store: Store): seq<File> {
    if store.Listing? then PickedFiles(store.files) else [store.file]
  }

  // ---- what a store holds, by its own files -------------------------------------------------

  /** A public key file; subdirectories and files of another name are passed by. */
  predicate IsKeyFile(f: File) {
    !f.isDir && |f.path| >= 4 && f.path[|f.path| - 4..] == ".pub"
  }

  /** A single file is read whatever its name. */
  predicate Offers(store: Store, f: File) {
    match store
    case Listing(files) => f in files && IsKeyFile(f)
    case Single(file) => f == file
  }

  function IdOf(f: File): string {
    Parse(f.path).keyID
  }

  /** No two of the directory's key files have one id. */
  predicate Apart(id: File -> string, files: seq<File>) {
    forall i, j | 0 <= i < j < |files| && IsKeyFile(files[i]) && IsKeyFile(files[j]) :: id(files[i]) != id(files[j])
  }

  predicate AllApart(id: File -> string, files: seq<File>) {
    forall i, j | 0 <= i < j < |files| :: id(files[i]) != id(files[j])
  }

  lemma {:induction false} PickedAre(files: seq<File>)
    ensures forall f :: f in PickedFiles(files) <==> f in files && IsKeyFile(f)
  {
    if files != [] {
      PickedAre(files[..|files| - 1]);
      assert files == files[..|files| - 1] + [files[|files| - 1]];
    }
  }

  lemma {:induction false} AllApartOneMore(id: File -> string, fs: seq<File>, f: File)
    ensures AllApart(id, fs + [f]) <==> AllApart(id, fs) && forall g | g in fs :: id(g) != id(f)
  {
    var all := fs + [f];
    assert forall i | 0 <= i < |fs| :: all[i] == fs[i];
    if AllApart(id, all) {
      forall g | g in fs ensures id(g) != id(f) {
        var i :| 0 <= i < |fs| && fs[i] == g;
        assert id(all[i]) != id(all[|fs|]);
      }
    }
  }

  lemma {:induction false} ApartOneMore(id: File -> string, fs: seq<File>, f: File)
    ensures Apart(id, fs + [f]) <==> Apart(id, fs) && (IsKeyFile(f) ==> forall g | g in fs && IsKeyFile(g) :: id(g) != id(f))
  {
    var all := fs + [f];
    assert forall i | 0 <= i < |fs| :: all[i] == fs[i];
    if Apart(id, all) && IsKeyFile(f) {
      forall g | g in fs && IsKeyFile(g) ensures id(g) != id(f) {
        var i :| 0 <= i < |fs| && fs[i] == g;
        assert id(all[i]) != id(all[|fs|]);
      }
    }
  }

  lemma {:induction false} PickedApart(id: File -> string, files: seq<File>)
    ensures AllApart(id, PickedFiles(files)) <==> Apart(id, files)
  {
    if files != [] {
      var init, f := files[..|files| - 1], files[|files| - 1];
      PickedApart(id, init);
      PickedAre(init);
      AllApartOneMore(id, PickedFiles(init), f);
      ApartOneMore(id, init, f);
      assert files == init + [f];
      if IsKeyFile(f) {
        assert PickedFiles(files) == PickedFiles(init) + [f];
        assert (forall g | g in PickedFiles(init) :: id(g) != id(f)) <==> forall g | g in init && IsKeyFile(g) :: id(g) != id(f);
      } else {
        assert PickedFiles(files) == PickedFiles(init);
      }
    }
  }

  /** What is taken loads exactly when there is a key file, every one holds a key and none repeats a key id. */
  lemma {:induction false} LoadsIff(store: Store)
    ensures Loads(TakenFrom(store)) <==>
            && (exists f :: Offers(store, f)) && (forall f | Offers(store, f) :: f.key.Some?)
            && (store.Listing? ==> Apart(IdOf, store.files))
    ensures forall f :: f in TakenFrom(store) <==> Offers(store, f)
  {
    var taken := TakenFrom(store);
    if store.Listing? {
      PickedAre(store.files);
      PickedApart(IdOf, store.files);
    }
    assert forall f :: f in taken <==> Offers(store, f);
    assert AllLoad(taken) <==> forall f | Offers(store, f) :: f.key.Some?;
    assert taken != [] ==> taken[0] in taken;
    if AllLoad(taken) {
      SameApart(taken);
    }
  }

  lemma {:induction false} SameApart(files: seq<File>)
    requires AllLoad(files)
    ensures DistinctKeys(Keys(files)) <==> AllApart(IdOf, files)
  {
    var ks := Keys(files);
    assert forall i | 0 <= i < |files| :: ks[i].binding.keyID == IdOf(files[i]);
  }

  predicate Bound(ts: TrustStore, f: File) {
    f.key.Some? && IdOf(f) in ts && ts[IdOf(f)] == TrustEntry(f.key.value, Parse(f.path).producer)
  }

  /** The store binds the key id of every file it offers, to the producer the file names and the key it holds, and no other. */
  ghost predicate HoldsKeys(store: Store, ts: TrustStore) {
    && (forall f | Offers(store, f) :: Bound(ts, f))
    && forall id | id in ts :: exists f :: Offers(store, f) && IdOf(f) == id
  }

  lemma {:induction false} TakenIsBound(taken: seq<File>, ts: TrustStore, i: nat)
    requires AllLoad(taken) && Binds(ts, Keys(taken)) && i < |taken|
    ensures Bound(ts, taken[i])
  {
    assert Keys(taken)[i] in Keys(taken);
  }

  lemma {:induction false} BoundIsTaken(taken: seq<File>, ts: TrustStore, id: string) returns (i: nat)
    requires AllLoad(taken) && Binds(ts, Keys(taken)) && id in ts
    ensures i < |taken| && IdOf(taken[i]) == id
  {
    var k :| k in Keys(taken) && k.binding.keyID == id;
    i :| 0 <= i < |taken| && Keys(taken)[i] == k;
  }

  lemma {:induction false} BoundIsHeld(store: Store, ts: TrustStore)
    requires AllLoad(TakenFrom(store)) && Binds(ts, Keys(TakenFrom(store)))
    requires forall f :: f in TakenFrom(store) <==> Offers(store, f)
    ensures HoldsKeys(store, ts)
  {
    var taken := TakenFrom(store);
    forall f | Offers(store, f) ensures Bound(ts, f) {
      assert f in taken;
      var i: nat :| i < |taken| && taken[i] == f;
      TakenIsBound(taken, ts, i);
    }
    forall id | id in ts ensures exists f :: Offers(store, f) && IdOf(f) == id {
      var i := BoundIsTaken(taken, ts, id);
      assert taken[i] in taken;
    }
  }

  /** Loading succeeds exactly then, so no trust entry overwrites another and an empty store is never trusted. */
  method LoadTrustStore(store: Store) returns (r: Result<TrustStore, string>)
    ensures r.Success? <==> Loads(TakenFrom(store))
    ensures r.Success? <==>
            && (exists f :: Offers(store, f)) && (forall f | Offers(store, f) :: f.key.Some?)
            && (store.Listing? ==> Apart(IdOf, store.files))
    ensures r.Success? ==> Binds(r.value, Keys(TakenFrom(store))) && HoldsKeys(store, r.value)
  {
    LoadsIff(store);
    var taken;
    if store.Listing? {
      taken := PickFiles(store.files);
    } else {
      taken := [store.file];
    }
    r := BindAll(taken);
    if taken == [] {
      return Failure("");
    }
    if r.Success? {
      BoundIsHeld(store, r.value);
    }
  }

  method PickFiles(files: seq<File>) returns (taken: seq<File>)
    ensures taken == PickedFiles(files)
  {
    taken := [];
    for i := 0 to |files|
      invariant taken == PickedFiles(files[..i])
    {
      assert files[..i + 1][..i] == files[..i];
      if Picked(files[i]) {
        taken := taken + [files[i]];
      }
    }
    assert files[..|files|] == files;
  }

  method BindAll(files: seq<File>) returns (r: Result<TrustStore, string>)
    ensures r.Success? <==> AllLoad(files) && DistinctKeys(Keys(files))
    ensures r.Success? ==> Binds(r.value, Keys(files))
  {
    var ts: TrustStore := map[];
    for i := 0 to |files|
      invariant AllLoad(files[..i]) && DistinctKeys(Keys(files[..i])) && Binds(ts, Keys(files[..i]))
    {
      assert files[..i + 1] == files[..i] + [files[i]];
      TakenOneMore(files[..i], files[i]);
      var added := AddTrustKey(ts, files[i]);
      if added.Failure? {
        if AllLoad(files) && DistinctKeys(Keys(files)) {
          StopsHere(files, i + 1);
        }
        return Failure(added.error);
      }
      ts := added.value;
    }
    assert files[..|files|] == files;
    return Success(ts);
  }

  lemma {:induction false} TakenOneMore(taken: seq<File>, f: File)
    requires AllLoad(taken)
    ensures f.key.Some? ==> AllLoad(taken + [f]) && Keys(taken + [f]) == Keys(taken) + [KeyOf(f)]
    ensures f.key.None? ==> !AllLoad(taken + [f])
  {
    assert (taken + [f])[|taken|] == f;
  }

  /** What stops the loader at some file stops it for all of them. */
  lemma {:induction false} StopsHere(files: seq<File>, n: nat)
    requires n <= |files| && AllLoad(files) && DistinctKeys(Keys(files))
    ensures AllLoad(files[..n]) && DistinctKeys(Keys(files[..n]))
  {
    forall i, j | 0 <= i < j < n ensures Keys(files[..n])[i].binding.keyID != Keys(files[..n])[j].binding.keyID {
      assert Keys(files)[i] == Keys(files[..n])[i] && Keys(files)[j] == Keys(files[..n])[j];
    }
  }
}
