/**
 Change plans (`app/changes/service.py`) as functions of a file tree: normalising raw operations, their
 preconditions, applying them one by one, and the check of the final state.
 */
module ChangeSpec {
  import opened Prelude
  import Text

  const MAX_OPERATIONS := 100
  const MAX_FILE_BYTES := 1048576
  const MAX_PLAN_BYTES := 4194304
  const DEFAULT_MODE := 420

  /** The components of a normalised relative path. */
  type Path = seq<string>

  /** A link carries the mode of what it points to, if that exists. */
  datatype Node = File(content: string, mode: nat) | Dir | Link(points: Option<nat>)

  /** Everything below the repository root. */
  type Tree = map<Path, Node>

  datatype Operation =
    | Create(path: Path, content: string)
    | Update(path: Path, content: string, expected: string)
    | Delete(path: Path, expected: string)
    | Rename(source: Path, destination: Path, expected: string)

  /** An operation as it arrives: its `type` and its other fields. */
  datatype Raw = Raw(kind: string, fields: map<string, string>)

  function PathsOf(op: Operation): set<Path> {
    if op.Rename? then {op.source, op.destination} else {op.path}
  }

  predicate IsDir(t: Tree, p: Path) {
    p == [] || (p in t && t[p].Dir?)
  }

  predicate Exists(t: Tree, p: Path) {
    p == [] || (p in t && (t[p].Link? ==> t[p].points.Some?))
  }

  function ParentOf(p: Path): Path {
    if p == [] then [] else p[..|p| - 1]
  }

  // ---------------------------------------------------------------- normalising

  function Meaningful(parts: seq<string>): (r: seq<string>)
    ensures forall x :: x in r <==> x in parts && x != "" && x != "."
  {
    if parts == [] then []
    else (if parts[0] == "" || parts[0] == "." then [] else [parts[0]]) + Meaningful(parts[1..])
  }

  /** `PurePosixPath(value).parts` of a relative path, and `as_posix` back. */
  function PosixParts(value: string): Path {
    Meaningful(Text.Split(value, "/"))
  }

  function Posix(p: Path): string {
    Text.Join(p, "/")
  }

  predicate CrossesLink(t: Tree, p: Path) {
    exists k | 0 < k <= |p| :: p[..k] in t && t[p[..k]].Link?
  }

  function NormalPath(t: Tree, value: string): Option<Path> {
    if value == "" || '\0' in value then None
    else
      var p := PosixParts(value);
      if value[0] == '/' || p == [] || ".." in p || p[0] == ".git" then None
      else if CrossesLink(t, p) || !IsDir(t, ParentOf(p)) then None
      else Some(p)
  }

  /** Hex digits with single underscores between them, as Python's `int` reads them. */
  predicate HexGroups(s: string) {
    && |s| > 0
    && forall i | 0 <= i < |s| :: IsHex(s[i]) || (s[i] == '_' && 0 < i < |s| - 1 && IsHex(s[i - 1]) && IsHex(s[i + 1]))
  }

  predicate PrefixedHex(s: string) {
    || HexGroups(s)
    || (|s| > 2 && s[0] == '0' && (s[1] == 'x' || s[1] == 'X')
        && (HexGroups(s[2..]) || (s[2] == '_' && HexGroups(s[3..]))))
  }

  /** `int(s, 16)` succeeds: spaces around, a sign, a `0x` prefix and underscores are all taken. */
  predicate ParsesAsHex(s: string) {
    var body := Strip(s);
    PrefixedHex(body) || (|body| > 0 && (body[0] == '+' || body[0] == '-') && PrefixedHex(body[1..]))
  }

  function NormalHash(value: string): Option<string> {
    if |value| != 71 || value[..7] != "sha256:" || !ParsesAsHex(value[7..]) then None else Some(Lower(value))
  }

  function CharBytes(c: char): nat {
    if c as int < 0x80 then 1 else if c as int < 0x800 then 2 else if c as int < 0x1_0000 then 3 else 4
  }

  /** Length of the UTF-8 encoding. */
  function Utf8Length(s: string): nat {
    if s == "" then 0 else CharBytes(s[0]) + Utf8Length(s[1..])
  }

  predicate ValidContent(content: string) {
    '\0' !in content && Utf8Length(content) <= MAX_FILE_BYTES
  }

  predicate HasOnly(raw: Raw, allowed: set<string>) {
    raw.fields.Keys <= allowed
  }

  function Field(raw: Raw, name: string): Option<string> {
    if name in raw.fields then Some(raw.fields[name]) else None
  }

  function PathField(t: Tree, raw: Raw, name: string): Option<Path> {
    var f := Field(raw, name);
    if f.None? then None else NormalPath(t, f.value)
  }

  function HashField(raw: Raw): Option<string> {
    var f := Field(raw, "expected_sha256");
    if f.None? then None else NormalHash(f.value)
  }

  function ContentField(raw: Raw): Option<string> {
    var f := Field(raw, "content");
    if f.None? || !ValidContent(f.value) then None else f
  }

  /** One raw operation, without regard to the others. */
  function NormalOperation(t: Tree, raw: Raw): Option<Operation> {
    var path, hash, content := PathField(t, raw, "path"), HashField(raw), ContentField(raw);
    var source, destination := PathField(t, raw, "source"), PathField(t, raw, "destination");
    match raw.kind
    case "create" =>
      if !HasOnly(raw, {"path", "content"}) || path.None? || content.None? then None
      else Some(Create(path.value, content.value))
    case "update" =>
      if !HasOnly(raw, {"path", "content", "expected_sha256"}) || path.None? || content.None? || hash.None? then None
      else Some(Update(path.value, content.value, hash.value))
    case "delete" =>
      if !HasOnly(raw, {"path", "expected_sha256"}) || path.None? || hash.None? then None
      else Some(Delete(path.value, hash.value))
    case "rename" =>
      if !HasOnly(raw, {"source", "destination", "expected_sha256"}) || source.None? || destination.None? || hash.None? then None
      else Some(Rename(source.value, destination.value, hash.value))
    case _ => None
  }

  function ContentBytes(op: Operation): nat {
    if op.Create? || op.Update? then Utf8Length(op.content) else 0
  }

  datatype Progress = Progress(ops: seq<Operation>, occupied: set<Path>, bytes: nat)

  /** One turn of the loop of `_normalize_operations`. */
  function NormalStep(t: Tree, p: Progress, raw: Raw): Option<Progress> {
    var op := NormalOperation(t, raw);
    if op.None? || PathsOf(op.value) * p.occupied != {} then None
    else Some(Progress(p.ops + [op.value], p.occupied + PathsOf(op.value), p.bytes + ContentBytes(op.value)))
  }

  function NormalAll(t: Tree, raws: seq<Raw>): Option<Progress> {
    if raws == [] then Some(Progress([], {}, 0))
    else
      var p := NormalAll(t, raws[..|raws| - 1]);
      if p.None? then None else NormalStep(t, p.value, raws[|raws| - 1])
  }

  /** `_normalize_operations`; every error is the same refusal here. */
  function Normalized(t: Tree, raws: seq<Raw>): Option<seq<Operation>> {
    if !(1 <= |raws| <= MAX_OPERATIONS) then None
    else
      var p := NormalAll(t, raws);
      if p.None? || p.value.bytes > MAX_PLAN_BYTES then None else Some(p.value.ops)
  }

  /** `as_dict` of a normalised operation. */
  function ToRaw(op: Operation): Raw {
    match op
    case Create(p, c) => Raw("create", map["path" := Posix(p), "content" := c])
    case Update(p, c, h) => Raw("update", map["path" := Posix(p), "content" := c, "expected_sha256" := h])
    case Delete(p, h) => Raw("delete", map["path" := Posix(p), "expected_sha256" := h])
    case Rename(s, d, h) => Raw("rename", map["source" := Posix(s), "destination" := Posix(d), "expected_sha256" := h])
  }

  function ToRaws(ops: seq<Operation>): (r: seq<Raw>)
    ensures |r| == |ops| && forall i | 0 <= i < |ops| :: r[i] == ToRaw(ops[i])
  {
    seq(|ops|, i requires 0 <= i < |ops| => ToRaw(ops[i]))
  }

  // ---------------------------------------------------------------- preconditions and effects

  type Hash = string -> string

  /** `_require_hash` passes. */
  predicate HasHash(t: Tree, p: Path, expected: string, hash: Hash) {
    p in t && t[p].File? && hash(t[p].content) == expected
  }

  predicate Ready(t: Tree, op: Operation, tracked: set<Path>, hash: Hash) {
    match op
    case Create(p, _) => !Exists(t, p)
    case Update(p, _, h) => p in tracked && HasHash(t, p, h, hash)
    case Delete(p, h) => p in tracked && HasHash(t, p, h, hash)
    case Rename(s, d, h) => s in tracked && HasHash(t, s, h, hash) && !Exists(t, d)
  }

  predicate AllReady(t: Tree, ops: seq<Operation>, tracked: set<Path>, hash: Hash) {
    forall op | op in ops :: Ready(t, op, tracked, hash)
  }

  function ModeAt(t: Tree, p: Path): nat {
    if p !in t then DEFAULT_MODE
    else match t[p]
      case File(_, mode) => mode
      case Link(points) => points.GetOr(DEFAULT_MODE)
      case Dir => DEFAULT_MODE
  }

  /** `_apply_operation`; none for an error of the operating system. */
  function ApplyOne(t: Tree, op: Operation): Option<Tree> {
    match op
    case Delete(p, _) => if p in t && !t[p].Dir? then Some(t - {p}) else None
    case Rename(s, d, _) =>
      if s !in t || t[s].Dir? || !IsDir(t, ParentOf(d)) || IsDir(t, d) then None
      else if s == d then Some(t) else Some((t - {s})[d := t[s]])
    case _ =>
      if !IsDir(t, ParentOf(op.path)) || IsDir(t, op.path) then None
      else Some(t[op.path := File(op.content, ModeAt(t, op.path))])
  }

  /** The tree after the operations in order, up to the first that fails, and how many were applied. */
  function ApplyAll(t: Tree, ops: seq<Operation>): (Tree, nat)
    decreases |ops|
  {
    if ops == [] then (t, 0)
    else
      var u := ApplyOne(t, ops[0]);
      if u.None? then (t, 0)
      else
        var r := ApplyAll(u.value, ops[1..]);
        (r.0, r.1 + 1)
  }

  predicate Final(t: Tree, op: Operation, hash: Hash) {
    match op
    case Create(p, c) => HasHash(t, p, hash(c), hash)
    case Update(p, c, _) => HasHash(t, p, hash(c), hash)
    case Delete(p, _) => !Exists(t, p)
    case Rename(s, d, h) => !Exists(t, s) && HasHash(t, d, h, hash)
  }

  /** `_verify_final_state` passes. */
  predicate AllFinal(t: Tree, ops: seq<Operation>, hash: Hash) {
    forall op | op in ops :: Final(t, op, hash)
  }
}
