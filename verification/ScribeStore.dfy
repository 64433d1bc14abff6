/** Scribe's file store over a modelled directory: appending, opening and size
    rotation. The directory maps file names to contents; a character is a byte. */
module ScribeStore {

  type Disk = map<string, string>

  datatype Entry = Entry(at: int, channel: string, nick: string, kind: string,
                         messageType: string, messageId: string, raw: string)

  datatype OpenFile = OpenFile(path: string, size: nat)

  /** `maxSize` is the rotation threshold in bytes; zero never rotates. */
  datatype Config = Config(perChannel: bool, maxSize: nat)

  datatype State = State(files: map<string, OpenFile>, disk: Disk)

  // ----- Names -----

  predicate Unsafe(c: char) { c in {'/', '\\', ':', '*', '?', '"', '<', '>', '|'} }

  /** Strips one leading '#' and replaces characters a file name must not hold. */
  function SanitizeChannel(ch: string): (r: string)
    ensures forall i | 0 <= i < |r| :: !Unsafe(r[i])
  {
    var s := if "#" <= ch then ch[1..] else ch;
    seq(|s|, i requires 0 <= i < |s| => if Unsafe(s[i]) then '_' else s[i])
  }

  function AppendKey(cfg: Config, channel: string): string {
    if cfg.perChannel then SanitizeChannel(channel) else "_all"
  }

  function KeyFor(perChannel: bool, channel: string): string {
    if perChannel && channel != "" then SanitizeChannel(channel) else "_all"
  }

  function FilePath(key: string): string { key + ".jsonl" }

  function Numeral(i: nat): string
    requires 1 <= i <= 10
  {
    if i == 10 then "10" else ['0' + i as char]
  }

  function Backup(path: string, i: nat): string
    requires 1 <= i <= 10
  {
    path + "." + Numeral(i)
  }

  lemma NumeralEnds(path: string, i: nat)
    requires 1 <= i <= 10
    ensures
      var b := Backup(path, i);
      b != "" && b[|b| - 1] == (if i == 10 then '0' else '0' + i as char)
  {}

  /** Backups of different files, and different backups of one, have different
      names, and none is named like a file. */
  lemma NamesDistinct(p: string, i: nat, q: string, j: nat, key: string)
    requires 1 <= i <= 10 && 1 <= j <= 10
    ensures Backup(p, i) == Backup(q, j) ==> p == q && i == j
    ensures Backup(p, i) != FilePath(key)
  {
    NumeralEnds(p, i);
    NumeralEnds(q, j);
    var f := FilePath(key);
    assert f[|f| - 1] == 'l';
    if Backup(p, i) == Backup(q, j) {
      assert i == j;
      var n := |p|;
      assert Backup(p, i)[..n] == p && |Backup(p, i)| - |Numeral(i)| - 1 == n;
      assert Backup(q, j)[..n] == q;
    }
  }

  lemma PathsDistinct(a: string, b: string)
    ensures FilePath(a) == FilePath(b) <==> a == b
  {
    if FilePath(a) == FilePath(b) {
      assert FilePath(a)[..|a|] == a && FilePath(b)[..|b|] == b;
    }
  }

  // ----- Renaming -----

  /** os.Rename with its error ignored: a missing source changes nothing. */
  function Rename(d: Disk, from: string, to: string): Disk {
    if from in d then (d - {from})[to := d[from]] else d
  }

  /** Backups i, i-1, ..., 1 each move up by one, then the file becomes backup 1. */
  function ShiftFrom(d: Disk, path: string, i: nat): Disk
    requires i <= 9
    decreases i
  {
    if i == 0 then Rename(d, path, Backup(path, 1))
    else ShiftFrom(Rename(d, Backup(path, i), Backup(path, i + 1)), path, i - 1)
  }

  function Shifted(d: Disk, path: string): Disk { ShiftFrom(d, path, 9) }

  // ----- The specification of one append -----

  predicate NeedsRotation(cfg: Config, s: State, key: string) {
    key in s.files && cfg.maxSize > 0 && s.files[key].size >= cfg.maxSize
  }

  /** Opens the key's file, creating it if it is missing. */
  function Open(s: State, key: string): State {
    var path := FilePath(key);
    var disk := if path in s.disk then s.disk else s.disk[path := ""];
    State(s.files[key := OpenFile(path, |disk[path]|)], disk)
  }

  function GetFile(cfg: Config, s: State, key: string): State {
    if NeedsRotation(cfg, s, key) then Open(State(s.files - {key}, Shifted(s.disk, s.files[key].path)), key)
    else if key in s.files then s
    else Open(s, key)
  }

  /** Appends text to the key's open file and counts its bytes. */
  function Write(s: State, key: string, text: string): State
    requires key in s.files
  {
    var f := s.files[key];
    var before := if f.path in s.disk then s.disk[f.path] else "";
    State(s.files[key := f.(size := f.size + |text|)], s.disk[f.path := before + text])
  }

  function AppendText(cfg: Config, s: State, key: string, text: string): State {
    Write(GetFile(cfg, s, key), key, text)
  }

  /** The line codec; encoding stands for json.Marshal and decoding for json.Unmarshal. */
  datatype Codec = Codec(encode: Entry -> string, decode: string -> Decoded)

  datatype Decoded = Garbled | Decoded(entry: Entry)

  function LineOf(codec: Codec, e: Entry): string { codec.encode(e) + "\n" }

  function AppendEntry(cfg: Config, codec: Codec, s: State, e: Entry): State {
    AppendText(cfg, s, AppendKey(cfg, e.channel), LineOf(codec, e))
  }

  // ----- The code -----

  class FileStore {
    const cfg: Config
    const codec: Codec
    var files: map<string, OpenFile>
    var disk: Disk

    constructor (cfg: Config, codec: Codec, disk: Disk)
      ensures this.cfg == cfg && this.codec == codec && Abs() == State(map[], disk)
    {
      this.cfg, this.codec, this.disk := cfg, codec, disk;
      files := map[];
    }

    ghost function Abs(): State
      reads this
    {
      State(files, disk)
    }

    ghost predicate Valid()
      reads this
    {
      forall k | k in files :: files[k].path in disk
    }

    method RenameFile(from: string, to: string)
      modifies `disk
      ensures disk == Rename(old(disk), from, to)
    {
      if from in disk {
        var contents := disk[from];
        disk := disk - {from};
        disk := disk[to := contents];
      }
    }

    method ShiftSizeBackups(path: string)
      modifies `disk
      ensures disk == Shifted(old(disk), path)
    {
      var i := 9;
      while i >= 1
        invariant 0 <= i <= 9
        invariant ShiftFrom(disk, path, i) == Shifted(old(disk), path)
      {
        RenameFile(Backup(path, i), Backup(path, i + 1));
        i := i - 1;
      }
      RenameFile(path, Backup(path, 1));
    }

    method OpenKey(key: string)
      modifies this
      ensures Abs() == Open(old(Abs()), key)
    {
      var path := FilePath(key);
      if path !in disk {
        disk := disk[path := ""];
      }
      files := files[key := OpenFile(path, |disk[path]|)];
    }

    method FetchFile(key: string)
      modifies this
      ensures Abs() == GetFile(cfg, old(Abs()), key)
    {
      var present := key in files;
      if present {
        if cfg.maxSize > 0 && files[key].size >= cfg.maxSize {
          var path := files[key].path;
          ShiftSizeBackups(path);
          files := files - {key};
          present := false;
        }
      }
      if !present {
        OpenKey(key);
      }
    }

    method Append(entry: Entry)
      modifies this
      ensures Abs() == AppendEntry(cfg, codec, old(Abs()), entry)
    {
      var key := if cfg.perChannel then SanitizeChannel(entry.channel) else "_all";
      FetchFile(key);
      var text := codec.encode(entry) + "\n";
      var f := files[key];
      var before := if f.path in disk then disk[f.path] else "";
      disk := disk[f.path := before + text];
      files := files[key := f.(size := f.size + |text|)];
    }
  }

  // ----- What rotation keeps -----

  /** Part of a log: everything but its last line, and that line. */
  datatype Segment = Segment(body: string, last: string)

  function Text(s: Segment): string { s.body + s.last }

  /** One key's log: every segment rotated out so far, oldest first, and the current one. */
  datatype Log = Log(rotated: seq<Segment>, current: Segment)

  const FIRST_LOG := Log([], Segment("", ""))

  /** Appending a line rotates first when the current segment has reached the threshold. */
  function Grow(maxSize: nat, log: Log, line: string): Log {
    if maxSize > 0 && |Text(log.current)| >= maxSize then Log(log.rotated + [log.current], Segment("", line))
    else log.(current := Segment(Text(log.current), line))
  }

  function AllText(segments: seq<Segment>): string {
    if segments == [] then "" else AllText(segments[..|segments| - 1]) + Text(segments[|segments| - 1])
  }

  /** Everything ever appended to the key. */
  function Everything(log: Log): string { AllText(log.rotated) + Text(log.current) }

  function Kept(log: Log): nat { if |log.rotated| < 10 then |log.rotated| else 10 }

  /** The segments still on disk, oldest first: backups Kept, ..., 1. */
  function OnDisk(log: Log): seq<Segment> { log.rotated[|log.rotated| - Kept(log)..] }

  /** Each rotated segment reached the threshold with its last line, and not before. */
  ghost predicate JustOver(maxSize: nat, s: Segment) { |s.body| < maxSize <= |Text(s)| }

  ghost predicate LogSound(maxSize: nat, log: Log) {
    && (maxSize == 0 ==> log.rotated == [])
    && (maxSize > 0 ==> |log.current.body| < maxSize)
    && (forall k | 0 <= k < |log.rotated| :: JustOver(maxSize, log.rotated[k]))
  }

  /** The key's files on disk are exactly its log: the current segment under the
      path, the last ten rotated ones as gapless backups, and the size counted right. */
  ghost predicate Holds(s: State, key: string, log: Log) {
    var path := FilePath(key);
    && key in s.files && s.files[key] == OpenFile(path, |Text(log.current)|)
    && path in s.disk && s.disk[path] == Text(log.current)
    && BackupsAre(s.disk, path, log.rotated)
  }

  /** Backup i is the i-th newest rotated segment, if there are that many. */
  ghost predicate BackupIs(d: Disk, path: string, rotated: seq<Segment>, i: nat)
    requires 1 <= i <= 10
  {
    && (Backup(path, i) in d <==> i <= |rotated|)
    && (i <= |rotated| ==> d[Backup(path, i)] == Text(rotated[|rotated| - i]))
  }

  ghost predicate BackupsAre(d: Disk, path: string, rotated: seq<Segment>) {
    forall i | 1 <= i <= 10 :: BackupIs(d, path, rotated, i)
  }

  /** Nothing of the key exists yet. */
  ghost predicate Absent(s: State, key: string) {
    && key !in s.files && FilePath(key) !in s.disk
    && forall i | 1 <= i <= 10 :: Backup(FilePath(key), i) !in s.disk
  }

  lemma BackupsDistinct(key: string)
    ensures forall i, j | 1 <= i <= 10 && 1 <= j <= 10 && i != j ::
              Backup(FilePath(key), i) != Backup(FilePath(key), j)
    ensures forall i | 1 <= i <= 10 :: Backup(FilePath(key), i) != FilePath(key)
  {
    forall i, j | 1 <= i <= 10 && 1 <= j <= 10
      ensures Backup(FilePath(key), i) == Backup(FilePath(key), j) ==> i == j
      ensures Backup(FilePath(key), i) != FilePath(key)
    {
      NamesDistinct(FilePath(key), i, FilePath(key), j, key);
    }
  }

  predicate IsBackup(name: string, path: string, upTo: nat)
    requires upTo <= 10
  {
    exists k | 1 <= k <= upTo :: name == Backup(path, k)
  }

  /** What happens to the name of backup `up` when backups i down to 1 shift. */
  predicate MovedUp(d: Disk, d': Disk, path: string, k: nat, up: nat, i: nat)
    requires 1 <= k <= 10 && 1 <= up <= 10
  {
    if Backup(path, k) in d then Backup(path, up) in d' && d'[Backup(path, up)] == d[Backup(path, k)]
    else Backup(path, up) in d' <==> k == i && Backup(path, up) in d
  }

  /** Shifting backups i down to 1 and the file itself, name by name: each moves up
      one place, a missing one leaves its place empty unless it is the topmost, and
      no other name is touched. */
  ghost predicate ShiftedTo(d: Disk, d': Disk, path: string, i: nat)
    requires i <= 9
  {
    && path !in d'
    && (path in d ==> Backup(path, 1) in d' && d'[Backup(path, 1)] == d[path])
    && (forall k, up | 1 <= k <= i && up == k + 1 :: MovedUp(d, d', path, k, up, i))
    && (forall name | name != path && !IsBackup(name, path, i + 1) ::
          (name in d' <==> name in d) && (name in d ==> d'[name] == d[name]))
  }

  lemma {:induction false} ShiftMoves(d: Disk, key: string, i: nat)
    requires i <= 9
    ensures ShiftedTo(d, ShiftFrom(d, FilePath(key), i), FilePath(key), i)
    decreases i
  {
    var path := FilePath(key);
    BackupsDistinct(key);
    hide FilePath, Backup, Numeral;
    if i == 0 {
      assert IsBackup(Backup(path, 1), path, 1);
    } else {
      var d1 := Rename(d, Backup(path, i), Backup(path, i + 1));
      ShiftMoves(d1, key, i - 1);
      ShiftOneMore(d, d1, ShiftFrom(d1, path, i - 1), key, i);
    }
  }

  lemma ShiftOneMore(d: Disk, d1: Disk, d': Disk, key: string, i: nat)
    requires 1 <= i <= 9 && d1 == Rename(d, Backup(FilePath(key), i), Backup(FilePath(key), i + 1))
    requires ShiftedTo(d1, d', FilePath(key), i - 1)
    ensures ShiftedTo(d, d', FilePath(key), i)
  {
    var path := FilePath(key);
    hide FilePath, Backup, Numeral, Rename, MovedUp, IsBackup;
    FileMoves(d, d1, d', key, i);
    forall name | name != path && !IsBackup(name, path, i + 1)
      ensures (name in d' <==> name in d) && (name in d ==> d'[name] == d[name])
    {
      OthersStay(d, d1, d', key, i, name);
    }
    forall k, up | 1 <= k <= i && up == k + 1
      ensures MovedUp(d, d', path, k, up, i)
    {
      if k < i {
        LowerMovesUp(d, d1, d', key, i, k);
      } else {
        TopMovesUp(d, d1, d', key, i);
      }
    }
  }

  lemma FileMoves(d: Disk, d1: Disk, d': Disk, key: string, i: nat)
    requires 1 <= i <= 9 && d1 == Rename(d, Backup(FilePath(key), i), Backup(FilePath(key), i + 1))
    requires ShiftedTo(d1, d', FilePath(key), i - 1)
    ensures var path := FilePath(key);
            path !in d' && (path in d ==> Backup(path, 1) in d' && d'[Backup(path, 1)] == d[path])
  {
    BackupsDistinct(key);
    hide FilePath, Backup, Numeral, MovedUp, IsBackup;
  }

  lemma OthersStay(d: Disk, d1: Disk, d': Disk, key: string, i: nat, name: string)
    requires 1 <= i <= 9 && d1 == Rename(d, Backup(FilePath(key), i), Backup(FilePath(key), i + 1))
    requires ShiftedTo(d1, d', FilePath(key), i - 1)
    requires name != FilePath(key) && !IsBackup(name, FilePath(key), i + 1)
    ensures (name in d' <==> name in d) && (name in d ==> d'[name] == d[name])
  {
    NotBackupBelow(name, FilePath(key), i);
    hide FilePath, Backup, Numeral, MovedUp, IsBackup;
  }

  lemma TopMovesUp(d: Disk, d1: Disk, d': Disk, key: string, i: nat)
    requires 1 <= i <= 9 && d1 == Rename(d, Backup(FilePath(key), i), Backup(FilePath(key), i + 1))
    requires ShiftedTo(d1, d', FilePath(key), i - 1)
    ensures MovedUp(d, d', FilePath(key), i, i + 1, i)
  {
    BackupsDistinct(key);
    TopUntouched(key, i);
    hide FilePath, Backup, Numeral;
  }

  lemma LowerMovesUp(d: Disk, d1: Disk, d': Disk, key: string, i: nat, k: nat)
    requires 1 <= k < i <= 9 && d1 == Rename(d, Backup(FilePath(key), i), Backup(FilePath(key), i + 1))
    requires ShiftedTo(d1, d', FilePath(key), i - 1)
    ensures MovedUp(d, d', FilePath(key), k, k + 1, i)
  {
    BackupsDistinct(key);
    hide FilePath, Backup, Numeral;
    assert MovedUp(d1, d', FilePath(key), k, k + 1, i - 1);
  }

  lemma NotBackupBelow(name: string, path: string, i: nat)
    requires 1 <= i <= 9 && !IsBackup(name, path, i + 1)
    ensures !IsBackup(name, path, i) && name != Backup(path, i) && name != Backup(path, i + 1)
  {}

  lemma TopUntouched(key: string, i: nat)
    requires 1 <= i <= 9
    ensures !IsBackup(Backup(FilePath(key), i + 1), FilePath(key), i)
  {
    BackupsDistinct(key);
    hide FilePath, Backup;
  }

  /** Rotating the key's files on disk rotates its log. */
  lemma RotationHolds(s: State, key: string, log: Log)
    requires Holds(s, key, log)
    ensures FilePath(key) !in Shifted(s.disk, FilePath(key))
    ensures BackupsAre(Shifted(s.disk, FilePath(key)), FilePath(key), log.rotated + [log.current])
  {
    ShiftMoves(s.disk, key, 9);
    forall i | 1 <= i <= 10
      ensures BackupIs(Shifted(s.disk, FilePath(key)), FilePath(key), log.rotated + [log.current], i)
    {
      BackupRotates(s, key, log, i);
    }
    hide Shifted, FilePath, Backup;
  }

  lemma BackupRotates(s: State, key: string, log: Log, i: nat)
    requires Holds(s, key, log) && 1 <= i <= 10
    requires ShiftedTo(s.disk, Shifted(s.disk, FilePath(key)), FilePath(key), 9)
    ensures BackupIs(Shifted(s.disk, FilePath(key)), FilePath(key), log.rotated + [log.current], i)
  {
    var path := FilePath(key);
    var d' := Shifted(s.disk, path);
    var rotated := log.rotated + [log.current];
    hide FilePath, Backup, Shifted;
    if i > 1 {
      assert MovedUp(s.disk, d', path, i - 1, i, 9);
      assert BackupIs(s.disk, path, log.rotated, i - 1) && BackupIs(s.disk, path, log.rotated, i);
      if i <= |rotated| {
        assert rotated[|rotated| - i] == log.rotated[|log.rotated| - (i - 1)];
      }
    }
  }

  lemma OpenedHolds(s: State, key: string, rotated: seq<Segment>, text: string)
    requires FilePath(key) !in s.disk && text != "" && BackupsAre(s.disk, FilePath(key), rotated)
    ensures Holds(Write(Open(s, key), key, text), key, Log(rotated, Segment("", text)))
  {
    BackupsDistinct(key);
    var path := FilePath(key);
    hide FilePath, Backup, Numeral;
    assert "" + text == text;
    var s' := Write(Open(s, key), key, text);
    forall i | 1 <= i <= 10
      ensures BackupIs(s'.disk, path, rotated, i)
    {
      assert BackupIs(s.disk, path, rotated, i);
    }
  }

  lemma RotatedAppendHolds(cfg: Config, s: State, key: string, log: Log, text: string)
    requires Holds(s, key, log) && text != "" && NeedsRotation(cfg, s, key)
    ensures Holds(AppendText(cfg, s, key, text), key, Log(log.rotated + [log.current], Segment("", text)))
  {
    RotationHolds(s, key, log);
    var rotated := log.rotated + [log.current];
    OpenedHolds(State(s.files - {key}, Shifted(s.disk, FilePath(key))), key, rotated, text);
    hide FilePath, Backup, Shifted;
  }

  lemma PlainAppendHolds(cfg: Config, s: State, key: string, log: Log, text: string)
    requires Holds(s, key, log) && text != "" && !NeedsRotation(cfg, s, key)
    ensures Holds(AppendText(cfg, s, key, text), key, log.(current := Segment(Text(log.current), text)))
  {
    BackupsDistinct(key);
    var path := FilePath(key);
    hide FilePath, Backup, Numeral;
    var s' := AppendText(cfg, s, key, text);
    forall i | 1 <= i <= 10
      ensures BackupIs(s'.disk, path, log.rotated, i)
    {
      assert BackupIs(s.disk, path, log.rotated, i);
    }
  }

  /** An append keeps the key's files and its log in step. */
  lemma AppendHolds(cfg: Config, s: State, key: string, log: Log, text: string)
    requires Holds(s, key, log) && text != ""
    ensures Holds(AppendText(cfg, s, key, text), key, Grow(cfg.maxSize, log, text))
  {
    if NeedsRotation(cfg, s, key) {
      RotatedAppendHolds(cfg, s, key, log, text);
    } else {
      PlainAppendHolds(cfg, s, key, log, text);
    }
    hide AppendText;
  }

  lemma FirstAppendHolds(cfg: Config, s: State, key: string, text: string)
    requires Absent(s, key) && text != ""
    ensures Holds(AppendText(cfg, s, key, text), key, Grow(cfg.maxSize, FIRST_LOG, text))
  {
    assert BackupsAre(s.disk, FilePath(key), []);
    OpenedHolds(s, key, [], text);
  }

  /** No name of one key's files is a name of another's. */
  lemma KeysApart(key: string, other: string)
    requires key != other
    ensures FilePath(other) != FilePath(key) && !IsBackup(FilePath(other), FilePath(key), 10)
    ensures forall i | 1 <= i <= 10 ::
              Backup(FilePath(other), i) != FilePath(key) && !IsBackup(Backup(FilePath(other), i), FilePath(key), 10)
  {
    PathsDistinct(key, other);
    forall j | 1 <= j <= 10
      ensures FilePath(other) != Backup(FilePath(key), j)
    {
      NamesDistinct(FilePath(key), j, FilePath(key), j, other);
    }
    forall i | 1 <= i <= 10
      ensures Backup(FilePath(other), i) != FilePath(key) && !IsBackup(Backup(FilePath(other), i), FilePath(key), 10)
    {
      NamesDistinct(FilePath(other), i, FilePath(key), 1, key);
      forall j | 1 <= j <= 10
        ensures Backup(FilePath(other), i) != Backup(FilePath(key), j)
      {
        NamesDistinct(FilePath(other), i, FilePath(key), j, key);
      }
    }
    hide FilePath, Backup, Numeral;
  }

  /** What an append to one key leaves alone: every name that is not its own. */
  lemma AppendFrame(cfg: Config, s: State, key: string, text: string, name: string)
    requires key in s.files ==> s.files[key].path == FilePath(key)
    requires name != FilePath(key) && !IsBackup(name, FilePath(key), 10)
    ensures
      var s' := AppendText(cfg, s, key, text);
      (name in s'.disk <==> name in s.disk) && (name in s.disk ==> s'.disk[name] == s.disk[name])
  {
    var path := FilePath(key);
    ShiftMoves(s.disk, key, 9);
    hide FilePath, Backup, Numeral, ShiftFrom;
  }

  lemma AppendLeavesOthers(cfg: Config, s: State, key: string, text: string, other: string, log: Log)
    requires key != other && (key in s.files ==> s.files[key].path == FilePath(key))
    ensures Holds(s, other, log) ==> Holds(AppendText(cfg, s, key, text), other, log)
    ensures Absent(s, other) ==> Absent(AppendText(cfg, s, key, text), other)
  {
    KeysApart(key, other);
    AppendFrame(cfg, s, key, text, FilePath(other));
    forall i | 1 <= i <= 10
      ensures
        var s' := AppendText(cfg, s, key, text);
        var name := Backup(FilePath(other), i);
        (name in s'.disk <==> name in s.disk) && (name in s.disk ==> s'.disk[name] == s.disk[name])
    {
      AppendFrame(cfg, s, key, text, Backup(FilePath(other), i));
    }
    AppendTouchesKey(cfg, s, key, text, other);
    var s' := AppendText(cfg, s, key, text);
    hide FilePath, Backup, Numeral, AppendText;
    forall i | 1 <= i <= 10 && BackupIs(s.disk, FilePath(other), log.rotated, i)
      ensures BackupIs(s'.disk, FilePath(other), log.rotated, i)
    {}
  }

  lemma AppendTouchesKey(cfg: Config, s: State, key: string, text: string, other: string)
    requires key != other
    ensures
      var s' := AppendText(cfg, s, key, text);
      (other in s'.files <==> other in s.files) && (other in s.files ==> s'.files[other] == s.files[other])
  {}

  // ----- Runs of appends -----

  /** Appending a history to a store over an empty directory. */
  function RunAppends(cfg: Config, codec: Codec, entries: seq<Entry>): State {
    if entries == [] then State(map[], map[])
    else AppendEntry(cfg, codec, RunAppends(cfg, codec, entries[..|entries| - 1]), entries[|entries| - 1])
  }

  function LogFor(cfg: Config, codec: Codec, entries: seq<Entry>, key: string): Log {
    if entries == [] then FIRST_LOG
    else
      var before := LogFor(cfg, codec, entries[..|entries| - 1], key);
      var e := entries[|entries| - 1];
      if AppendKey(cfg, e.channel) == key then Grow(cfg.maxSize, before, LineOf(codec, e)) else before
  }

  /** Every line the history writes under the key, in order. */
  function Written(cfg: Config, codec: Codec, entries: seq<Entry>, key: string): string {
    if entries == [] then ""
    else
      var e := entries[|entries| - 1];
      Written(cfg, codec, entries[..|entries| - 1], key)
      + (if AppendKey(cfg, e.channel) == key then LineOf(codec, e) else "")
  }

  predicate Used(cfg: Config, entries: seq<Entry>, key: string) {
    exists i | 0 <= i < |entries| :: AppendKey(cfg, entries[i].channel) == key
  }

  lemma UsedStep(cfg: Config, entries: seq<Entry>, key: string)
    requires entries != []
    ensures Used(cfg, entries, key) <==>
            Used(cfg, entries[..|entries| - 1], key) || AppendKey(cfg, entries[|entries| - 1].channel) == key
  {}

  ghost predicate RunMatches(cfg: Config, codec: Codec, entries: seq<Entry>, key: string) {
    if Used(cfg, entries, key) then Holds(RunAppends(cfg, codec, entries), key, LogFor(cfg, codec, entries, key))
    else Absent(RunAppends(cfg, codec, entries), key) && LogFor(cfg, codec, entries, key) == FIRST_LOG
  }

  lemma PathStored(cfg: Config, codec: Codec, entries: seq<Entry>, key: string)
    requires RunMatches(cfg, codec, entries, key)
    ensures var s := RunAppends(cfg, codec, entries); key in s.files ==> s.files[key].path == FilePath(key)
  {
    hide RunAppends, LogFor, Used;
  }

  lemma {:induction false} RunHolds(cfg: Config, codec: Codec, entries: seq<Entry>, key: string)
    ensures RunMatches(cfg, codec, entries, key)
  {
    if entries != [] {
      var init, e := entries[..|entries| - 1], entries[|entries| - 1];
      var s := RunAppends(cfg, codec, init);
      var own := AppendKey(cfg, e.channel);
      RunHolds(cfg, codec, init, key);
      RunHolds(cfg, codec, init, own);
      PathStored(cfg, codec, init, own);
      UsedStep(cfg, entries, key);
      hide Used, Holds, Absent, AppendKey, Grow, AppendText, FilePath;
      if own != key {
        AppendLeavesOthers(cfg, s, own, LineOf(codec, e), key, LogFor(cfg, codec, init, key));
      } else if Used(cfg, init, key) {
        AppendHolds(cfg, s, key, LogFor(cfg, codec, init, key), LineOf(codec, e));
      } else {
        FirstAppendHolds(cfg, s, key, LineOf(codec, e));
      }
    }
  }

  lemma AllTextAppend(segments: seq<Segment>, s: Segment)
    ensures AllText(segments + [s]) == AllText(segments) + Text(s)
  {
    assert (segments + [s])[..|segments|] == segments;
  }

  lemma {:induction false} AllTextConcat(a: seq<Segment>, b: seq<Segment>)
    ensures AllText(a + b) == AllText(a) + AllText(b)
  {
    if b == [] {
      assert a + b == a;
    } else {
      hide AllText, Text;
      var init, last := b[..|b| - 1], b[|b| - 1];
      AllTextConcat(a, init);
      assert b == init + [last];
      assert a + b == (a + init) + [last];
      AllTextAppend(a + init, last);
      AllTextAppend(init, last);
      Regroup(AllText(a), AllText(init), Text(last));
    }
  }

  lemma Regroup(x: string, y: string, z: string)
    ensures (x + y) + z == x + (y + z)
  {
  }

  lemma GrowKeeps(maxSize: nat, log: Log, line: string)
    requires LogSound(maxSize, log)
    ensures LogSound(maxSize, Grow(maxSize, log, line))
    ensures Everything(Grow(maxSize, log, line)) == Everything(log) + line
  {
    AllTextAppend(log.rotated, log.current);
    assert "" + line == line;
  }

  lemma {:induction false} LogIsSound(cfg: Config, codec: Codec, entries: seq<Entry>, key: string)
    ensures LogSound(cfg.maxSize, LogFor(cfg, codec, entries, key))
    ensures Everything(LogFor(cfg, codec, entries, key)) == Written(cfg, codec, entries, key)
  {
    if entries != [] {
      var init, e := entries[..|entries| - 1], entries[|entries| - 1];
      LogIsSound(cfg, codec, init, key);
      GrowKeeps(cfg.maxSize, LogFor(cfg, codec, init, key), LineOf(codec, e));
      hide LogSound, Everything, Grow;
      assert Written(cfg, codec, init, key) + "" == Written(cfg, codec, init, key);
    }
  }

  /** Size rotation loses only the oldest data. After any run of appends to an empty
      directory, for every key written: its files are its log, with gapless backups
      1..k and k at most ten, and the tracked size is the file's; read from the
      oldest backup to the file itself they are a suffix of everything written, all
      of it until the eleventh rotation; and each rotated file passed the threshold
      with its last line. */
  lemma RotationLosesOnlyOldest(cfg: Config, codec: Codec, entries: seq<Entry>, key: string)
    requires Used(cfg, entries, key)
    ensures
      var s := RunAppends(cfg, codec, entries);
      var log := LogFor(cfg, codec, entries, key);
      var onDisk := AllText(OnDisk(log)) + Text(log.current);
      var all := Written(cfg, codec, entries, key);
      && Holds(s, key, log) && Kept(log) <= 10
      && |onDisk| <= |all| && all[|all| - |onDisk|..] == onDisk
      && (|log.rotated| <= 10 ==> onDisk == all)
      && (forall k | 0 <= k < |log.rotated| :: JustOver(cfg.maxSize, log.rotated[k]))
  {
    RunHolds(cfg, codec, entries, key);
    LogIsSound(cfg, codec, entries, key);
    KeptIsSuffix(LogFor(cfg, codec, entries, key));
    hide Holds, RunAppends, LogFor, Written, AllText, Text, OnDisk, Everything;
  }

  /** What is on disk is the end of everything, and all of it up to ten rotations. */
  lemma KeptIsSuffix(log: Log)
    ensures
      var onDisk := AllText(OnDisk(log)) + Text(log.current);
      var all := Everything(log);
      && |onDisk| <= |all| && all[|all| - |onDisk|..] == onDisk
      && (|log.rotated| <= 10 ==> onDisk == all)
  {
    var dropped := log.rotated[..|log.rotated| - Kept(log)];
    AllTextConcat(dropped, OnDisk(log));
    assert log.rotated == dropped + OnDisk(log);
    var onDisk := AllText(OnDisk(log)) + Text(log.current);
    assert |log.rotated| <= 10 ==> dropped == [] && AllText(dropped) == "";
    hide AllText, Text, OnDisk;
    assert Everything(log) == AllText(dropped) + onDisk;
  }
}
