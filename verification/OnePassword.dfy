/** The 1Password backup of a machine (cmd/opspulse/onepassword_backup.go and
    onepassword_inventory.go): read, merge, write, verify, roll back, against a vault whose
    writes may silently store something else. */
module OnePassword {
  import opened Wrappers
  import opened Text
  import Names

  // ----- documents -----

  datatype Server = Server(name: string, keyPath: string, password: string)

  datatype BackupFile = BackupFile(machine: string, servers: seq<Server>, keys: map<string, string>)

  /** The document codec and the builder of the item around a document. */
  datatype Codec = Codec(marshal: BackupFile -> Option<string>, parse: string -> Option<BackupFile>, packable: string -> bool)

  /** A marshalled backup parses back to the same keys, and is not blank. */
  ghost predicate RoundTrips(c: Codec) {
    forall f: BackupFile :: c.marshal(f).Some? ==>
      var s := c.marshal(f).value;
      !Blank(s) && c.parse(s).Some? && c.parse(s).value.keys == f.keys
  }

  // ----- local keys -----

  /** secret.Is1PRef. */
  predicate IsReference(value: string) {
    "op://" <= Trim(value)
  }

  predicate NamesKey(s: Server) {
    Trim(s.keyPath) != "" && !IsReference(s.keyPath)
  }

  /** What can be read from disk, path by path. */
  type Files = string -> Option<string>

  function LocalKeys(servers: seq<Server>, files: Files): map<string, string> {
    if servers == [] then map[]
    else
      var s, rest := servers[|servers| - 1], LocalKeys(servers[..|servers| - 1], files);
      if NamesKey(s) && files(s.keyPath).Some? then rest[s.name := files(s.keyPath).value] else rest
  }

  function Unreadable(servers: seq<Server>, files: Files): seq<string> {
    if servers == [] then []
    else
      var s := servers[|servers| - 1];
      Unreadable(servers[..|servers| - 1], files) + if NamesKey(s) && files(s.keyPath).None? then [s.name] else []
  }

  predicate Readable(s: Server, files: Files, n: string) {
    s.name == n && NamesKey(s) && files(s.keyPath).Some?
  }

  predicate Missed(s: Server, files: Files, n: string) {
    s.name == n && NamesKey(s) && files(s.keyPath).None?
  }

  predicate AnyOf<T>(xs: seq<T>, p: T -> bool) {
    exists i :: 0 <= i < |xs| && p(xs[i])
  }

  lemma AnyOfLast<T>(xs: seq<T>, p: T -> bool)
    requires xs != []
    ensures AnyOf(xs, p) <==> AnyOf(xs[..|xs| - 1], p) || p(xs[|xs| - 1])
  {
    var front := xs[..|xs| - 1];
    assert forall i :: 0 <= i < |front| ==> front[i] == xs[i];
    if AnyOf(front, p) {
      var i :| 0 <= i < |front| && p(front[i]);
      assert p(xs[i]);
    }
  }

  /** A server that names a key ends up in one of the two, and only such servers do. */
  lemma {:induction false} KeyReadable(servers: seq<Server>, files: Files, n: string)
    ensures n in LocalKeys(servers, files) <==> AnyOf(servers, s => Readable(s, files, n))
  {
    if servers != [] {
      AnyOfLast(servers, s => Readable(s, files, n));
      KeyReadable(servers[..|servers| - 1], files, n);
    }
  }

  lemma {:induction false} KeyMissed(servers: seq<Server>, files: Files, n: string)
    ensures n in Unreadable(servers, files) <==> AnyOf(servers, s => Missed(s, files, n))
  {
    if servers != [] {
      AnyOfLast(servers, s => Missed(s, files, n));
      KeyMissed(servers[..|servers| - 1], files, n);
    }
  }

  method ReadLocalKeys(servers: seq<Server>, files: Files) returns (keys: map<string, string>, unreadable: seq<string>)
    ensures keys == LocalKeys(servers, files) && unreadable == Unreadable(servers, files)
  {
    keys, unreadable := map[], [];
    for i := 0 to |servers|
      invariant keys == LocalKeys(servers[..i], files) && unreadable == Unreadable(servers[..i], files)
    {
      assert servers[..i + 1][..i] == servers[..i];
      var s := servers[i];
      if Trim(s.keyPath) == "" || IsReference(s.keyPath) {
        continue;
      }
      match files(s.keyPath) {
        case None => unreadable := unreadable + [s.name];
        case Some(data) => keys := keys[s.name := data];
      }
    }
    assert servers[..|servers|] == servers;
  }

  // ----- the merge -----

  /** The document's keys: what is readable here, and for what is not, the vault's copy. */
  ghost predicate Merged(keys: map<string, string>, previous: map<string, string>, unreadable: seq<string>, merged: map<string, string>) {
    && (forall n :: n in merged <==> n in keys || (n in unreadable && n in previous && previous[n] != ""))
    && (forall n :: n in merged ==> merged[n] == if n in keys then keys[n] else previous[n])
  }

  /** inheritMissingKeys. The previous keys split exactly into carried and dropped, the
      dropped ones in byte order, the inherited ones once each. */
  method InheritMissingKeys(keys: map<string, string>, previous: map<string, string>, unreadable: seq<string>)
    returns (merged: map<string, string>, inherited: seq<string>, dropped: seq<string>)
    ensures Merged(keys, previous, unreadable, merged)
    ensures Names.Sorted(dropped) && forall n :: n in dropped <==> n in previous && n !in merged
    ensures forall n :: n in inherited <==> n in merged && n !in keys
    ensures forall i, j :: 0 <= i < j < |inherited| ==> inherited[i] != inherited[j]
  {
    merged, inherited, dropped := keys, [], [];
    if |previous| == 0 {
      return;
    }
    for i := 0 to |unreadable|
      invariant Merged(keys, previous, unreadable[..i], merged)
      invariant forall n :: n in inherited <==> n in merged && n !in keys
      invariant forall i, j :: 0 <= i < j < |inherited| ==> inherited[i] != inherited[j]
    {
      var name := unreadable[i];
      if name in merged || name !in previous || previous[name] == "" {
        continue;
      }
      merged, inherited := merged[name := previous[name]], inherited + [name];
    }
    assert unreadable[..|unreadable|] == unreadable;
    dropped := DroppedKeys(previous.Keys, merged.Keys);
  }

  method DroppedKeys(previous: set<string>, carried: set<string>) returns (dropped: seq<string>)
    ensures Names.Sorted(dropped) && forall n :: n in dropped <==> n in previous && n !in carried
  {
    dropped := [];
    var names := Names.SortedKeys(previous);
    for i := 0 to |names|
      invariant Names.Sorted(dropped)
      invariant forall n :: n in dropped <==> n in names[..i] && n !in carried
      invariant forall k, j :: 0 <= k < |dropped| && i <= j < |names| ==> Names.Less(dropped[k], names[j])
    {
      if names[i] !in carried {
        dropped := dropped + [names[i]];
      }
    }
  }

  /** Main result on the merge, for a server that is still listed with a key path: its key is
      kept when no server of this name has a readable file, and is that of the file otherwise.
      It stays known exactly unless the file read for it is empty. */
  lemma KeptKey(servers: seq<Server>, files: Files, previous: map<string, string>, merged: map<string, string>, i: nat)
    requires i < |servers| && NamesKey(servers[i])
    requires Merged(LocalKeys(servers, files), previous, Unreadable(servers, files), merged)
    requires servers[i].name in previous && previous[servers[i].name] != ""
    ensures servers[i].name in merged
    ensures servers[i].name !in LocalKeys(servers, files) ==> merged[servers[i].name] == previous[servers[i].name]
    ensures servers[i].name in LocalKeys(servers, files) ==> merged[servers[i].name] == LocalKeys(servers, files)[servers[i].name]
    ensures merged[servers[i].name] != "" <==>
              (servers[i].name in LocalKeys(servers, files) ==> LocalKeys(servers, files)[servers[i].name] != "")
  {
    var n := servers[i].name;
    KeyReadable(servers, files, n);
    KeyMissed(servers, files, n);
    assert Readable(servers[i], files, n) || Missed(servers[i], files, n);
  }

  /** Which old keys leave the document: exactly those no readable file replaces and no
      unreadable one protects, so also those of a listed server without a key path. */
  lemma DroppedIff(servers: seq<Server>, files: Files, previous: map<string, string>, merged: map<string, string>, n: string)
    requires Merged(LocalKeys(servers, files), previous, Unreadable(servers, files), merged)
    ensures n in previous && n !in merged <==>
              && n in previous && !AnyOf(servers, s => Readable(s, files, n))
              && (AnyOf(servers, s => Missed(s, files, n)) ==> previous[n] == "")
  {
    KeyReadable(servers, files, n);
    KeyMissed(servers, files, n);
  }

  // ----- the way back: credentials of all machines -----

  /** The first non-empty value in a list, "" if there is none. */
  function First<T>(value: T -> string, list: seq<T>): string {
    if list == [] then ""
    else
      var earlier := First(value, list[..|list| - 1]);
      if earlier != "" then earlier else value(list[|list| - 1])
  }

  lemma FirstMore<T>(value: T -> string, list: seq<T>, x: T)
    ensures First(value, list + [x]) == if First(value, list) != "" then First(value, list) else value(x)
  {
    assert (list + [x])[..|list|] == list;
  }

  lemma {:induction false} FirstIs<T>(value: T -> string, list: seq<T>) returns (k: nat)
    ensures k <= |list| && forall j :: 0 <= j < k ==> value(list[j]) == ""
    ensures k < |list| ==> First(value, list) == value(list[k]) != ""
    ensures k == |list| ==> First(value, list) == ""
  {
    k := 0;
    if list != [] {
      var front := list[..|list| - 1];
      k := FirstIs(value, front);
      assert forall j :: 0 <= j < |front| ==> front[j] == list[j];
      if k == |front| && value(list[k]) == "" {
        k := k + 1;
      }
    }
  }

  function KeyFor(found: map<string, string>, n: string): string {
    if n in found then found[n] else ""
  }

  function PasswordFor(s: Server, n: string): string {
    if s.name == n then s.password else ""
  }

  /** The key and the password of `n` as the backups, in title order, name them first. */
  function FirstKey(blobs: seq<BackupFile>, n: string): string {
    First((b: BackupFile) => KeyFor(b.keys, n), blobs)
  }

  function PasswordAmong(servers: seq<Server>, n: string): string {
    First((s: Server) => PasswordFor(s, n), servers)
  }

  function PasswordIn(b: BackupFile, n: string): string {
    PasswordAmong(b.servers, n)
  }

  function FirstPassword(blobs: seq<BackupFile>, n: string): string {
    First((b: BackupFile) => PasswordIn(b, n), blobs)
  }

  datatype Credentials = Credentials(key: string, password: string)

  function Of(found: map<string, Credentials>, n: string): Credentials {
    if n in found then found[n] else Credentials("", "")
  }

  function Either(a: string, b: string): string {
    if a != "" then a else b
  }

  function WithKey(found: map<string, Credentials>, n: string, key: string): map<string, Credentials> {
    found[n := Of(found, n).(key := Either(Of(found, n).key, key))]
  }

  function WithPassword(found: map<string, Credentials>, n: string, password: string): map<string, Credentials> {
    found[n := Of(found, n).(password := Either(Of(found, n).password, password))]
  }

  lemma WithKeyMeaning(found: map<string, Credentials>, n: string, key: string)
    ensures forall m :: Of(WithKey(found, n, key), m).password == Of(found, m).password
    ensures forall m :: Of(WithKey(found, n, key), m).key == if m == n then Either(Of(found, m).key, key) else Of(found, m).key
  {
  }

  lemma WithPasswordMeaning(found: map<string, Credentials>, n: string, password: string)
    ensures forall m :: Of(WithPassword(found, n, password), m).key == Of(found, m).key
    ensures forall m :: Of(WithPassword(found, n, password), m).password
                     == if m == n then Either(Of(found, m).password, password) else Of(found, m).password
  {
  }

  /** The keys of one backup: the map yields them in any order. */
  method CollectKeys(found: map<string, Credentials>, keys: map<string, string>) returns (r: map<string, Credentials>)
    ensures forall n :: Of(r, n).key == Either(Of(found, n).key, KeyFor(keys, n)) && Of(r, n).password == Of(found, n).password
  {
    r := found;
    var rest := keys.Keys;
    while rest != {}
      invariant rest <= keys.Keys
      invariant forall n :: Of(r, n).password == Of(found, n).password
      invariant forall n :: Of(r, n).key == if n in rest then Of(found, n).key else Either(Of(found, n).key, KeyFor(keys, n))
      decreases |rest|
    {
      var n :| n in rest;
      rest := rest - {n};
      WithKeyMeaning(r, n, keys[n]);
      r := WithKey(r, n, keys[n]);
    }
  }

  /** The passwords of one backup, server by server. */
  method CollectPasswords(found: map<string, Credentials>, b: BackupFile) returns (r: map<string, Credentials>)
    ensures forall n :: Of(r, n).key == Of(found, n).key && Of(r, n).password == Either(Of(found, n).password, PasswordIn(b, n))
  {
    r := found;
    for i := 0 to |b.servers|
      invariant forall n :: Of(r, n).key == Of(found, n).key
      invariant forall n :: Of(r, n).password == Either(Of(found, n).password, PasswordAmong(b.servers[..i], n))
    {
      var s := b.servers[i];
      assert b.servers[..i + 1] == b.servers[..i] + [s];
      forall n ensures PasswordAmong(b.servers[..i + 1], n) == Either(PasswordAmong(b.servers[..i], n), PasswordFor(s, n)) {
        FirstMore((x: Server) => PasswordFor(x, n), b.servers[..i], s);
      }
      WithPasswordMeaning(r, s.name, s.password);
      r := WithPassword(r, s.name, s.password);
    }
    assert b.servers[..|b.servers|] == b.servers;
  }

  /** What the credentials found so far hold. */
  ghost predicate Collected(found: map<string, Credentials>, blobs: seq<BackupFile>) {
    forall n :: Of(found, n) == Credentials(FirstKey(blobs, n), FirstPassword(blobs, n))
  }

  lemma CollectedMore(blobs: seq<BackupFile>, b: BackupFile, n: string)
    ensures FirstKey(blobs + [b], n) == Either(FirstKey(blobs, n), KeyFor(b.keys, n))
    ensures FirstPassword(blobs + [b], n) == Either(FirstPassword(blobs, n), PasswordIn(b, n))
  {
    FirstMore((x: BackupFile) => KeyFor(x.keys, n), blobs, b);
    FirstMore((x: BackupFile) => PasswordIn(x, n), blobs, b);
  }

  method CollectOne(found: map<string, Credentials>, b: BackupFile, ghost before: seq<BackupFile>) returns (r: map<string, Credentials>)
    requires Collected(found, before)
    ensures Collected(r, before + [b])
  {
    r := CollectKeys(found, b.keys);
    r := CollectPasswords(r, b);
    forall n ensures Of(r, n) == Credentials(FirstKey(before + [b], n), FirstPassword(before + [b], n)) {
      CollectedMore(before, b, n);
    }
  }

  /** collectBackupCredentials: which backup wins does not depend on map order. */
  method CollectCredentials(blobs: seq<BackupFile>) returns (found: map<string, Credentials>)
    ensures Collected(found, blobs)
  {
    found := map[];
    for i := 0 to |blobs|
      invariant Collected(found, blobs[..i])
    {
      assert blobs[..i + 1] == blobs[..i] + [blobs[i]];
      found := CollectOne(found, blobs[i], blobs[..i]);
    }
    assert blobs[..|blobs|] == blobs;
  }

  /** Main result: the key is that of the first backup that has one which is not empty, */
  lemma FirstKeyIs(blobs: seq<BackupFile>, n: string) returns (k: nat)
    ensures k <= |blobs| && forall j :: 0 <= j < k ==> KeyFor(blobs[j].keys, n) == ""
    ensures FirstKey(blobs, n) == if k < |blobs| then KeyFor(blobs[k].keys, n) else ""
    ensures k < |blobs| ==> KeyFor(blobs[k].keys, n) != ""
  {
    k := FirstIs((b: BackupFile) => KeyFor(b.keys, n), blobs);
  }

  /** and the password that of the first server of this name, in the first backup, that has
      one which is not empty. */
  lemma FirstPasswordIs(blobs: seq<BackupFile>, n: string) returns (k: nat, i: nat)
    ensures FirstPassword(blobs, n) != "" <==> k < |blobs|
    ensures k < |blobs| ==> i < |blobs[k].servers| && PasswordFor(blobs[k].servers[i], n) == FirstPassword(blobs, n)
    ensures k < |blobs| ==> forall j :: 0 <= j < i ==> PasswordFor(blobs[k].servers[j], n) == ""
    ensures k <= |blobs|
    ensures forall a, j :: 0 <= a < k && 0 <= j < |blobs[a].servers| ==> PasswordFor(blobs[a].servers[j], n) == ""
  {
    i := 0;
    k := FirstIs((b: BackupFile) => PasswordIn(b, n), blobs);
    if k < |blobs| {
      i := FirstIs((s: Server) => PasswordFor(s, n), blobs[k].servers);
    }
    forall a | 0 <= a < k ensures forall j :: 0 <= j < |blobs[a].servers| ==> PasswordFor(blobs[a].servers[j], n) == "" {
      var none := FirstIs((s: Server) => PasswordFor(s, n), blobs[a].servers);
      assert PasswordIn(blobs[a], n) == "";
    }
  }

  // ----- the vault -----

  datatype ReadAnswer = Value(text: string) | Missing | ReadFailed

  datatype WriteAnswer = Stored | NoSuchItem | WriteFailed

  /** The item of this machine. What reads show, and what writes answer and leave behind,
      is arbitrary and may change from call to call. */
  class Vault {
    const show: (nat, Option<string>) -> ReadAnswer
    const edit: (nat, Option<string>, string) -> (WriteAnswer, Option<string>)
    const create: (nat, Option<string>, string) -> (WriteAnswer, Option<string>)
    var item: Option<string>
    var calls: nat

    constructor (show: (nat, Option<string>) -> ReadAnswer, edit: (nat, Option<string>, string) -> (WriteAnswer, Option<string>),
                 create: (nat, Option<string>, string) -> (WriteAnswer, Option<string>), item: Option<string>)
      ensures this.show == show && this.edit == edit && this.create == create && this.item == item && calls == 0
    {
      this.show, this.edit, this.create, this.item, calls := show, edit, create, item, 0;
    }

    /** A read that shows something shows the item; it may fail at any time. */
    ghost predicate FaithfulReads() {
      forall k, c: Option<string> ::
        && (show(k, c).Value? ==> c == Some(show(k, c).text))
        && (show(k, c).Missing? ==> c.None?)
    }

    method Read() returns (r: ReadAnswer)
      modifies this`calls
      ensures r == show(calls, item) && calls == old(calls) + 1
    {
      calls := calls + 1;
      r := show(calls, item);
    }

    method Edit(payload: string) returns (r: WriteAnswer)
      modifies this
      ensures (r, item) == edit(calls, old(item), payload) && calls == old(calls) + 1
    {
      calls := calls + 1;
      var (answer, left) := edit(calls, item, payload);
      r, item := answer, left;
    }

    method Create(payload: string) returns (r: WriteAnswer)
      modifies this
      ensures (r, item) == create(calls, old(item), payload) && calls == old(calls) + 1
    {
      calls := calls + 1;
      var (answer, left) := create(calls, item, payload);
      r, item := answer, left;
    }
  }

  // ----- the protocol -----

  datatype Previous = Nothing | Document(raw: string, file: BackupFile) | Unusable

  function KeysOf(p: Previous): map<string, string> {
    if p.Document? then p.file.keys else map[]
  }

  /** The keys a document in the vault holds. */
  function OldKeys(codec: Codec, item: Option<string>): map<string, string> {
    if item.Some? && !Blank(item.value) && codec.parse(item.value).Some? then codec.parse(item.value).value.keys else map[]
  }

  /** readPreviousBackup. */
  method ReadPrevious(vault: Vault, codec: Codec) returns (p: Previous)
    modifies vault`calls
    ensures vault.calls == old(vault.calls) + 1
    ensures vault.FaithfulReads() ==>
              match p
              case Nothing => vault.item.None? || Blank(vault.item.value)
              case Document(raw, file) => vault.item == Some(raw) && codec.parse(raw) == Some(file)
              case Unusable => true
    ensures vault.FaithfulReads() && !p.Unusable? ==> KeysOf(p) == OldKeys(codec, vault.item)
    ensures p.Unusable? <==>
              var r := vault.show(vault.calls, vault.item);
              r.ReadFailed? || (r.Value? && !Blank(r.text) && codec.parse(r.text).None?)
  {
    var r := vault.Read();
    match r {
      case Missing => return Nothing;
      case ReadFailed => return Unusable;
      case Value(text) =>
        if Trim(text) == "" {
          return Nothing;
        }
        match codec.parse(text) {
          case None => return Unusable;
          case Some(file) => return Document(text, file);
        }
    }
  }

  /** writeBackupItem: edit, and create only when the item is not there. */
  method WriteItem(vault: Vault, codec: Codec, payload: string) returns (ok: bool)
    modifies vault
    ensures !codec.packable(payload) ==> !ok && vault.item == old(vault.item) && vault.calls == old(vault.calls)
    ensures codec.packable(payload) ==>
              var (first, left) := vault.edit(old(vault.calls) + 1, old(vault.item), payload);
              if !first.NoSuchItem? then ok == first.Stored? && vault.item == left && vault.calls == old(vault.calls) + 1
              else
                var (second, end) := vault.create(old(vault.calls) + 2, left, payload);
                ok == second.Stored? && vault.item == end && vault.calls == old(vault.calls) + 2
  {
    if !codec.packable(payload) {
      return false;
    }
    var first := vault.Edit(payload);
    if first.Stored? {
      return true;
    }
    if !first.NoSuchItem? {
      return false;
    }
    var second := vault.Create(payload);
    return second.Stored?;
  }

  /** verifyBackupItem. */
  method Verify(vault: Vault, payload: string) returns (ok: bool)
    modifies vault`calls
    ensures ok <==> vault.show(vault.calls, vault.item) == Value(payload)
    ensures ok && vault.FaithfulReads() ==> vault.item == Some(payload)
    ensures vault.calls == old(vault.calls) + 1
  {
    var r := vault.Read();
    return r == Value(payload);
  }

  /** rollbackBackupItem: true when the previous document was written back. */
  method Rollback(vault: Vault, codec: Codec, previous: Previous) returns (ok: bool)
    modifies vault
    ensures !previous.Document? || !codec.packable(previous.raw) ==> !ok && vault.item == old(vault.item)
    ensures previous.Document? && codec.packable(previous.raw) ==>
              var (answer, left) := vault.edit(vault.calls, old(vault.item), previous.raw);
              ok == (answer == Stored) && vault.item == left
    ensures ok ==> previous.Document?
  {
    if !previous.Document? || !codec.packable(previous.raw) {
      return false;
    }
    var r := vault.Edit(previous.raw);
    return r.Stored?;
  }

  /** How a backup ended. */
  datatype Ending =
    | Refused
    | Unencodable
    | Untrusted
    | Verified(payload: string, merged: map<string, string>)
    | Undone(raw: string, answered: bool)

  /** An edit that stores what it is given, whatever the item holds. */
  ghost predicate FaithfulWriteBack(edit: (nat, Option<string>, string) -> (WriteAnswer, Option<string>), call: nat, raw: string) {
    forall c: Option<string> :: edit(call, c, raw) == (Stored, Some(raw))
  }

  /** The write, its verification, and the way back. */
  method Commit(vault: Vault, codec: Codec, previous: Previous, payload: string, merged: map<string, string>) returns (e: Ending)
    requires vault.FaithfulReads()
    modifies vault
    ensures e.Verified? || e.Untrusted? || e.Undone?
    ensures e.Verified? ==> e == Verified(payload, merged) && vault.item == Some(payload)
    ensures e.Verified? && vault.edit(old(vault.calls) + 1, old(vault.item), payload).0 == Stored ==> vault.calls == old(vault.calls) + 2
    ensures e.Verified? ==> vault.calls <= old(vault.calls) + 3
    ensures e.Undone? ==> previous.Document? && e.raw == previous.raw
    ensures e.Undone? && FaithfulWriteBack(vault.edit, vault.calls, e.raw) ==> e.answered && vault.item == Some(e.raw)
  {
    var written := WriteItem(vault, codec, payload);
    if !written {
      return Untrusted;
    }
    var good := Verify(vault, payload);
    if good {
      return Verified(payload, merged);
    }
    var undone := Rollback(vault, codec, previous);
    if !previous.Document? || !codec.packable(previous.raw) {
      return Untrusted;
    }
    return Undone(previous.raw, undone);
  }

  method KeysToStore(previous: Previous, servers: seq<Server>, files: Files) returns (merged: map<string, string>)
    ensures Merged(LocalKeys(servers, files), KeysOf(previous), Unreadable(servers, files), merged)
  {
    var keys, unreadable := ReadLocalKeys(servers, files);
    var inherited, dropped;
    merged, inherited, dropped := InheritMissingKeys(keys, KeysOf(previous), unreadable);
  }

  /** backupMachineToOnePassword. */
  method BackupMachine(vault: Vault, codec: Codec, machine: string, servers: seq<Server>, files: Files)
    returns (ok: bool, e: Ending)
    requires vault.FaithfulReads() && RoundTrips(codec)
    modifies vault
    ensures Outcome(codec, servers, files, old(vault.item), e, vault.item)
    ensures ok <==> e.Verified?
    ensures e.Verified? ==> codec.marshal(BackupFile(machine, servers, e.merged)) == Some(e.payload)
    ensures e.Undone? && FaithfulWriteBack(vault.edit, vault.calls, e.raw) ==> e.answered && vault.item == old(vault.item)
    ensures e.Verified? ==> vault.calls <= old(vault.calls) + 4
    ensures e.Verified? && (old(vault.item).Some? && vault.edit(old(vault.calls) + 2, old(vault.item), e.payload).0 == Stored) ==>
              vault.calls == old(vault.calls) + 3
  {
    var previous := ReadPrevious(vault, codec);
    if previous.Unusable? {
      return false, Refused;
    }
    var merged := KeysToStore(previous, servers, files);
    var encoded := codec.marshal(BackupFile(machine, servers, merged));
    if encoded.None? {
      return false, Unencodable;
    }
    e := Commit(vault, codec, previous, encoded.value, merged);
    return e.Verified?, e;
  }

  /** What is known about the item after a backup, from the item before it. */
  ghost predicate Outcome(codec: Codec, servers: seq<Server>, files: Files, before: Option<string>, e: Ending, after: Option<string>) {
    match e
    case Refused => after == before
    case Unencodable => after == before
    case Untrusted => true
    case Undone(raw, _) => before == Some(raw) && codec.parse(raw).Some?
    case Verified(payload, merged) =>
      && after == Some(payload) && !Blank(payload) && codec.parse(payload).Some? && codec.parse(payload).value.keys == merged
      && Merged(LocalKeys(servers, files), OldKeys(codec, before), Unreadable(servers, files), merged)
  }

  // ----- many backups -----

  /** One backup: the inventory and the disk it saw, and how it ended. */
  datatype Day = Day(servers: seq<Server>, files: Files, e: Ending)

  /** `items` are the vault's contents before, between and after these backups. */
  ghost predicate History(codec: Codec, days: seq<Day>, items: seq<Option<string>>) {
    && |items| == |days| + 1
    && forall i :: 0 <= i < |days| ==> Outcome(codec, days[i].servers, days[i].files, items[i], days[i].e, items[i + 1])
  }

  /** A write that was not verified left or put back what was there before. */
  predicate Recovered(d: Day, before: Option<string>, after: Option<string>) {
    d.e.Untrusted? || d.e.Undone? ==> after == before
  }

  predicate Listed(servers: seq<Server>, n: string) {
    AnyOf(servers, (s: Server) => s.name == n && NamesKey(s))
  }

  /** The day's view of one key: listed, and its file, if readable, not empty. */
  predicate KeepsKey(d: Day, n: string) {
    Listed(d.servers, n) && (n in LocalKeys(d.servers, d.files) ==> LocalKeys(d.servers, d.files)[n] != "")
  }

  /** The key as last read by a verified backup. */
  function Known(days: seq<Day>, n: string, first: string): string {
    if days == [] then first
    else
      var d := days[|days| - 1];
      if d.e.Verified? && n in LocalKeys(d.servers, d.files) then LocalKeys(d.servers, d.files)[n]
      else Known(days[..|days| - 1], n, first)
  }

  predicate Holds(codec: Codec, item: Option<string>, n: string, key: string) {
    n in OldKeys(codec, item) && OldKeys(codec, item)[n] == key
  }

  lemma DayKeepsKey(codec: Codec, d: Day, before: Option<string>, after: Option<string>, n: string, key: string)
    requires Outcome(codec, d.servers, d.files, before, d.e, after) && Recovered(d, before, after)
    requires KeepsKey(d, n) && Holds(codec, before, n, key) && key != ""
    ensures Holds(codec, after, n,
                  if d.e.Verified? && n in LocalKeys(d.servers, d.files) then LocalKeys(d.servers, d.files)[n] else key)
  {
    if d.e.Verified? {
      var i :| 0 <= i < |d.servers| && d.servers[i].name == n && NamesKey(d.servers[i]);
      KeptKey(d.servers, d.files, OldKeys(codec, before), d.e.merged, i);
    }
  }

  /** Main result over any sequence of backups with faithful reads: as long as unverified
      writes are recovered from, a key of a listed server is never lost; the vault holds it
      as it was last read by a verified backup, however often its file was unreadable. */
  lemma {:induction false} KeySurvives(codec: Codec, days: seq<Day>, items: seq<Option<string>>, n: string, first: string)
    requires History(codec, days, items)
    requires forall i :: 0 <= i < |days| ==> Recovered(days[i], items[i], items[i + 1])
    requires forall i :: 0 <= i < |days| ==> KeepsKey(days[i], n)
    requires Holds(codec, items[0], n, first) && first != ""
    ensures Known(days, n, first) != "" && Holds(codec, items[|days|], n, Known(days, n, first))
    decreases |days|
  {
    if days != [] {
      var k := |days| - 1;
      var front, d := days[..k], days[k];
      assert forall i :: 0 <= i < k ==> front[i] == days[i];
      KeySurvives(codec, front, items[..k + 1], n, first);
      assert days[k] == d && KeepsKey(d, n);
      DayKeepsKey(codec, d, items[k], items[k + 1], n, Known(front, n, first));
    }
  }

  /** For instance, reading must fail for the vault's copy to be kept: a readable empty file
      replaces it. */
  lemma EmptyFileReplacesKey(files: Files, merged: map<string, string>)
    requires files("k") == Some("")
    requires Merged(LocalKeys([Server("a", "k", "")], files), map["a" := "K"], Unreadable([Server("a", "k", "")], files), merged)
    ensures merged["a"] == ""
  {
    var s := Server("a", "k", "");
    PathNamesKey(s);
    assert [s][..0] == [] && [s][0] == s;
    assert LocalKeys([s], files) == map["a" := ""];
  }

  lemma PathNamesKey(s: Server)
    requires s.keyPath == "k"
    ensures NamesKey(s)
  {
    assert Trim("k") == "k" by {
      assert "k" != "" && !IsSpace("k"[0]) && !IsSpace("k"[|"k"| - 1]);
    }
  }

  /** A listed server whose key path was cleared: its key leaves the backup, although the
      report speaks of servers that are no longer listed. */
  lemma ListedYetDropped(files: Files, merged: map<string, string>)
    requires Merged(LocalKeys([Server("a", "", "")], files), map["a" := "K"], Unreadable([Server("a", "", "")], files), merged)
    ensures "a" !in merged
  {
    var s := Server("a", "", "");
    assert [s][..0] == [] && [s][0] == s && !NamesKey(s);
    assert LocalKeys([s], files) == map[] && Unreadable([s], files) == [];
  }
}
