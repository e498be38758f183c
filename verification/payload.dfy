/** Job payloads, their tagged JSON form, and the bytes the server signs. */
module Payloads {
  import opened Common
  import opened Json
  import Utf8

  type U32 = n: nat | n < 0x1_0000_0000

  datatype ShellType = Bash | Powershell | Sh | Cmd

  datatype PackageManager = Winget | Chocolatey | Homebrew | Apt | Dnf | Pacman

  datatype JobPayload =
    | RunScript(shell: ShellType, script: string)
    | InstallPackage(manager: PackageManager, package: string, version: Option<string>)
    | UninstallPackage(manager: PackageManager, package: string)
    | PushFile(destination: string, contentB64: string, permissions: Option<string>)
    | Reboot(delaySeconds: U32)
    | CollectInventory
    | RunPatchUpdate(patchIds: seq<string>)

  // ---- serialisation: serde's `tag = "type"`, snake_case names ----

  function ShellName(s: ShellType): string {
    match s
    case Bash => "bash"
    case Powershell => "powershell"
    case Sh => "sh"
    case Cmd => "cmd"
  }

  function ManagerName(m: PackageManager): string {
    match m
    case Winget => "winget"
    case Chocolatey => "chocolatey"
    case Homebrew => "homebrew"
    case Apt => "apt"
    case Dnf => "dnf"
    case Pacman => "pacman"
  }

  function Nullable(t: Option<string>): Json {
    match t
    case None => Null
    case Some(s) => Str(s)
  }

  function Texts(ss: seq<string>): seq<Json> {
    seq(|ss|, i requires 0 <= i < |ss| => Str(ss[i]))
  }

  datatype Key =
    | Type | Shell | Script | Manager | Package | Version
    | Destination | ContentB64 | Permissions | DelaySeconds | PatchIds

  function KeyName(k: Key): string {
    match k
    case Type => "type"
    case Shell => "shell"
    case Script => "script"
    case Manager => "manager"
    case Package => "package"
    case Version => "version"
    case Destination => "destination"
    case ContentB64 => "content_b64"
    case Permissions => "permissions"
    case DelaySeconds => "delay_seconds"
    case PatchIds => "patch_ids"
  }

  datatype Kind = ScriptKind | InstallKind | UninstallKind | PushKind | RebootKind | InventoryKind | PatchKind

  function Tag(k: Kind): string {
    match k
    case ScriptKind => "run_script"
    case InstallKind => "install_package"
    case UninstallKind => "uninstall_package"
    case PushKind => "push_file"
    case RebootKind => "reboot"
    case InventoryKind => "collect_inventory"
    case PatchKind => "run_patch_update"
  }

  function KindOf(p: JobPayload): Kind {
    match p
    case RunScript(_, _) => ScriptKind
    case InstallPackage(_, _, _) => InstallKind
    case UninstallPackage(_, _) => UninstallKind
    case PushFile(_, _, _) => PushKind
    case Reboot(_) => RebootKind
    case CollectInventory => InventoryKind
    case RunPatchUpdate(_) => PatchKind
  }

  function F(k: Key, v: Json): Field { Field(KeyName(k), v) }

  /** The fields after the tag, in declaration order. */
  function Body(p: JobPayload): seq<Field> {
    match p
    case RunScript(shell, script) => [F(Shell, Str(ShellName(shell))), F(Script, Str(script))]
    case InstallPackage(manager, package, version) =>
      [F(Manager, Str(ManagerName(manager))), F(Package, Str(package)), F(Version, Nullable(version))]
    case UninstallPackage(manager, package) => [F(Manager, Str(ManagerName(manager))), F(Package, Str(package))]
    case PushFile(destination, contentB64, permissions) =>
      [F(Destination, Str(destination)), F(ContentB64, Str(contentB64)), F(Permissions, Nullable(permissions))]
    case Reboot(delay) => [F(DelaySeconds, Num(delay))]
    case CollectInventory => []
    case RunPatchUpdate(ids) => [F(PatchIds, Arr(Texts(ids)))]
  }

  function Fields(p: JobPayload): seq<Field> {
    [F(Type, Str(Tag(KindOf(p))))] + Body(p)
  }

  function PayloadText(p: JobPayload): string { Print(Obj(Fields(p))) }

  // ---- deserialisation: unknown fields ignored, duplicated ones refused ----

  datatype Found = Missing | One(value: Json) | Many

  function Lookup(fields: seq<Field>, key: Key): Found {
    var hits := Filter(fields, (f: Field) => f.name == KeyName(key));
    if |hits| == 0 then Missing else if |hits| == 1 then One(hits[0].value) else Many
  }

  function Text(fields: seq<Field>, key: Key): Option<string> {
    match Lookup(fields, key)
    case One(Str(s)) => Some(s)
    case _ => None
  }

  function NullableText(fields: seq<Field>, key: Key): Option<Option<string>> {
    match Lookup(fields, key)
    case Missing => Some(None)
    case One(Null) => Some(None)
    case One(Str(s)) => Some(Some(s))
    case _ => None
  }

  /** An enum without fields is written as its name, or as an object from the name to a unit. */
  function VariantName(fields: seq<Field>, key: Key): Option<string> {
    match Lookup(fields, key)
    case One(Str(s)) => Some(s)
    case One(Obj(inner)) =>
      if |inner| == 1 && (inner[0].value == Null || inner[0].value == Obj([])) then Some(inner[0].name) else None
    case _ => None
  }

  function ReadTexts(items: seq<Json>): Option<seq<string>> {
    if items == [] then Some([])
    else match (items[0], ReadTexts(items[1..]))
      case (Str(s), Some(more)) => Some([s] + more)
      case _ => None
  }

  function ReadShell(name: string): Option<ShellType> {
    if name == "bash" then Some(Bash)
    else if name == "powershell" then Some(Powershell)
    else if name == "sh" then Some(Sh)
    else if name == "cmd" then Some(Cmd)
    else None
  }

  function ReadManager(name: string): Option<PackageManager> {
    if name == "winget" then Some(Winget)
    else if name == "chocolatey" then Some(Chocolatey)
    else if name == "homebrew" then Some(Homebrew)
    else if name == "apt" then Some(Apt)
    else if name == "dnf" then Some(Dnf)
    else if name == "pacman" then Some(Pacman)
    else None
  }

  function ReadTag(name: string): Option<Kind> {
    if name == "run_script" then Some(ScriptKind)
    else if name == "install_package" then Some(InstallKind)
    else if name == "uninstall_package" then Some(UninstallKind)
    else if name == "push_file" then Some(PushKind)
    else if name == "reboot" then Some(RebootKind)
    else if name == "collect_inventory" then Some(InventoryKind)
    else if name == "run_patch_update" then Some(PatchKind)
    else None
  }

  function ManagerField(fields: seq<Field>): Option<PackageManager> {
    match VariantName(fields, Manager)
    case None => None
    case Some(name) => ReadManager(name)
  }

  function ShellField(fields: seq<Field>): Option<ShellType> {
    match VariantName(fields, Shell)
    case None => None
    case Some(name) => ReadShell(name)
  }

  function ReadBody(kind: Kind, fields: seq<Field>): Option<JobPayload> {
    match kind
    case ScriptKind =>
      (match (ShellField(fields), Text(fields, Script))
       case (Some(shell), Some(script)) => Some(RunScript(shell, script))
       case _ => None)
    case InstallKind =>
      (match (ManagerField(fields), Text(fields, Package), NullableText(fields, Version))
       case (Some(m), Some(package), Some(version)) => Some(InstallPackage(m, package, version))
       case _ => None)
    case UninstallKind =>
      (match (ManagerField(fields), Text(fields, Package))
       case (Some(m), Some(package)) => Some(UninstallPackage(m, package))
       case _ => None)
    case PushKind =>
      (match (Text(fields, Destination), Text(fields, ContentB64), NullableText(fields, Permissions))
       case (Some(destination), Some(content), Some(permissions)) => Some(PushFile(destination, content, permissions))
       case _ => None)
    case RebootKind =>
      (match Lookup(fields, DelaySeconds)
       case One(Num(n)) => if n < 0x1_0000_0000 then Some(Reboot(n)) else None
       case _ => None)
    case InventoryKind => Some(CollectInventory)
    case PatchKind =>
      (match Lookup(fields, PatchIds)
       case One(Arr(items)) =>
         (match ReadTexts(items)
          case None => None
          case Some(ids) => Some(RunPatchUpdate(ids)))
       case _ => None)
  }

  function ReadFields(fields: seq<Field>): Option<JobPayload> {
    match Text(fields, Type)
    case None => None
    case Some(name) =>
      match ReadTag(name)
      case None => None
      case Some(kind) => ReadBody(kind, fields)
  }

  /** The fields of each kind, in declaration order. */
  function BodyKeys(kind: Kind): seq<Key> {
    match kind
    case ScriptKind => [Shell, Script]
    case InstallKind => [Manager, Package, Version]
    case UninstallKind => [Manager, Package]
    case PushKind => [Destination, ContentB64, Permissions]
    case RebootKind => [DelaySeconds]
    case InventoryKind => []
    case PatchKind => [PatchIds]
  }

  function Positional(keys: seq<Key>, items: seq<Json>): seq<Field>
    requires |items| == |keys| + 1
  {
    seq(|keys|, i requires 0 <= i < |keys| => F(keys[i], items[i + 1]))
  }

  /** The array form of a tagged enum: the tag, then exactly the fields by position. */
  function ReadArray(items: seq<Json>): Option<JobPayload> {
    if items == [] || !items[0].Str? then None
    else match ReadTag(items[0].s)
      case None => None
      case Some(kind) =>
        if |items| == |BodyKeys(kind)| + 1 then ReadBody(kind, Positional(BodyKeys(kind), items)) else None
  }

  function FromJson(v: Json): Option<JobPayload> {
    match v
    case Obj(fields) => ReadFields(fields)
    case Arr(items) => ReadArray(items)
    case _ => None
  }

  function ReadPayload(text: string): Option<JobPayload> {
    match ParseText(text)
    case Done(v, _) => FromJson(v)
    case Fail => None
  }

  // ---- round trip ----

  ghost predicate DistinctNames(fields: seq<Field>) {
    forall i, j :: 0 <= i < j < |fields| ==> fields[i].name != fields[j].name
  }

  lemma {:induction false} LookupAbsent(fields: seq<Field>, name: string)
    requires forall j :: 0 <= j < |fields| ==> fields[j].name != name
    ensures Filter(fields, (f: Field) => f.name == name) == []
  {
    if fields != [] {
      LookupAbsent(fields[1..], name);
    }
  }

  lemma {:induction false} LookupAt(fields: seq<Field>, i: nat)
    requires i < |fields| && DistinctNames(fields)
    ensures Filter(fields, (f: Field) => f.name == fields[i].name) == [fields[i]]
  {
    if i == 0 {
      LookupAbsent(fields[1..], fields[0].name);
    } else {
      LookupAt(fields[1..], i - 1);
      assert fields[0].name != fields[i].name;
      assert fields[1..][i - 1] == fields[i];
    }
  }

  lemma {:induction false} ReadPrintedTexts(ids: seq<string>)
    ensures ReadTexts(Texts(ids)) == Some(ids)
  {
    if ids != [] {
      ReadPrintedTexts(ids[1..]);
      assert Texts(ids)[1..] == Texts(ids[1..]);
      assert ids == [ids[0]] + ids[1..];
    }
  }

  lemma KeysDistinct(a: Key, b: Key)
    requires KeyName(a) == KeyName(b)
    ensures a == b
  {
    assert KeyName(a)[0] == KeyName(b)[0];
  }

  lemma FieldNamesDistinct(p: JobPayload)
    ensures DistinctNames(Fields(p))
  {
    hide KeyName;
    forall a: Key, b: Key | KeyName(a) == KeyName(b)
      ensures a == b
    {
      KeysDistinct(a, b);
    }
  }

  lemma ReadNames(s: ShellType, m: PackageManager, k: Kind)
    ensures ReadShell(ShellName(s)) == Some(s)
    ensures ReadManager(ManagerName(m)) == Some(m)
    ensures ReadTag(Tag(k)) == Some(k)
  {
    assert "apt"[0] != "dnf"[0] && "winget"[0] != "pacman"[0];
    assert "uninstall_package"[0] != "collect_inventory"[0];
  }

  lemma LookupField(p: JobPayload, i: nat, k: Key)
    requires i < |Fields(p)| && Fields(p)[i].name == KeyName(k)
    ensures Lookup(Fields(p), k) == One(Fields(p)[i].value)
  {
    hide KeyName, Fields;
    FieldNamesDistinct(p);
    LookupAt(Fields(p), i);
  }

  /** Deserialising the serialised form gives the payload back. */
  lemma FromToJson(p: JobPayload)
    ensures FromJson(Obj(Fields(p))) == Some(p)
  {
    hide Lookup, KeyName, Tag, ReadTag, ShellName, ReadShell, ManagerName, ReadManager, ReadTexts;
    var s := if p.RunScript? then p.shell else Sh;
    var m := if p.InstallPackage? || p.UninstallPackage? then p.manager else Apt;
    ReadNames(s, m, KindOf(p));
    LookupField(p, 0, Type);
    match p
    case RunScript(_, _) => LookupField(p, 1, Shell); LookupField(p, 2, Script);
    case InstallPackage(_, _, _) => LookupField(p, 1, Manager); LookupField(p, 2, Package); LookupField(p, 3, Version);
    case UninstallPackage(_, _) => LookupField(p, 1, Manager); LookupField(p, 2, Package);
    case PushFile(_, _, _) => LookupField(p, 1, Destination); LookupField(p, 2, ContentB64);
      LookupField(p, 3, Permissions);
    case Reboot(_) => LookupField(p, 1, DelaySeconds);
    case CollectInventory =>
    case RunPatchUpdate(ids) => LookupField(p, 1, PatchIds); ReadPrintedTexts(ids);
  }

  lemma LookupIn(p: JobPayload, fields: seq<Field>, i: nat, k: Key)
    requires fields == Body(p) && i < |fields| && fields[i].name == KeyName(k)
    ensures Lookup(fields, k) == One(fields[i].value)
  {
    hide KeyName, Body;
    FieldNamesDistinct(p);
    assert Fields(p)[1..] == fields;
    assert forall j :: 0 <= j < |fields| ==> fields[j] == Fields(p)[j + 1];
    LookupAt(fields, i);
  }

  function Values(fields: seq<Field>): seq<Json> { Map(fields, (f: Field) => f.value) }

  /** A payload is also read from its array form, which has no field names. */
  lemma FromArrayForm(p: JobPayload)
    ensures FromJson(Arr([Str(Tag(KindOf(p)))] + Values(Body(p)))) == Some(p)
  {
    hide Lookup, KeyName, Tag, ReadTag, ShellName, ReadShell, ManagerName, ReadManager, ReadTexts;
    var s := if p.RunScript? then p.shell else Sh;
    var m := if p.InstallPackage? || p.UninstallPackage? then p.manager else Apt;
    ReadNames(s, m, KindOf(p));
    var b := Body(p);
    assert Positional(BodyKeys(KindOf(p)), [Str(Tag(KindOf(p)))] + Values(b)) == b;
    match p
    case RunScript(_, _) => LookupIn(p, b, 0, Shell); LookupIn(p, b, 1, Script);
    case InstallPackage(_, _, _) => LookupIn(p, b, 0, Manager); LookupIn(p, b, 1, Package); LookupIn(p, b, 2, Version);
    case UninstallPackage(_, _) => LookupIn(p, b, 0, Manager); LookupIn(p, b, 1, Package);
    case PushFile(_, _, _) => LookupIn(p, b, 0, Destination); LookupIn(p, b, 1, ContentB64);
      LookupIn(p, b, 2, Permissions);
    case Reboot(_) => LookupIn(p, b, 0, DelaySeconds);
    case CollectInventory =>
    case RunPatchUpdate(ids) => LookupIn(p, b, 0, PatchIds); ReadPrintedTexts(ids);
  }

  lemma PayloadRoundTrip(p: JobPayload)
    ensures ReadPayload(PayloadText(p)) == Some(p)
  {
    ParsePrintedText(Obj(Fields(p)));
    FromToJson(p);
  }

  // ---- key order: JSONB columns do not keep it ----

  lemma LookupIgnoresOrder(a: seq<Field>, b: seq<Field>, key: Key)
    requires multiset(a) == multiset(b)
    ensures Lookup(a, key) == Lookup(b, key)
  {
    hide KeyName;
    var p := (f: Field) => f.name == KeyName(key);
    var ha, hb := Filter(a, p), Filter(b, p);
    forall x: Field
      ensures multiset(ha)[x] == multiset(hb)[x]
    {
      FilterCount(a, p, x);
      FilterCount(b, p, x);
    }
    assert multiset(ha) == multiset(hb);
    assert |ha| == |multiset(ha)| && |hb| == |multiset(hb)|;
    if |ha| == 1 {
      assert ha == [ha[0]] && hb == [hb[0]];
      assert ha[0] in multiset(hb);
    }
  }

  /** Storing a payload object with its keys in another order changes nothing about the job it means. */
  lemma PayloadIgnoresKeyOrder(a: seq<Field>, b: seq<Field>)
    requires multiset(a) == multiset(b)
    ensures FromJson(Obj(a)) == FromJson(Obj(b))
  {
    hide Lookup, ReadTexts, ReadTag, ReadShell, ReadManager;
    forall key: Key
      ensures Lookup(a, key) == Lookup(b, key)
    {
      LookupIgnoresOrder(a, b, key);
    }
    assert Text(a, Type) == Text(b, Type);
  }

  // ---- signing bytes ----

  /** Domain separator: 20 ASCII characters and a NUL. */
  function SignDomain(): seq<Byte> { Utf8.Encode("OSFM-EDM-JOB-SIGN-v1") + [0] }

  function SigningBytes(id: Uuid, p: JobPayload): seq<Byte> {
    SignDomain() + id + Utf8.Encode(PayloadText(p))
  }

  method CanonicalJobSigningBytes(id: Uuid, p: JobPayload) returns (bytes: seq<Byte>)
    ensures bytes == SigningBytes(id, p)
  {
    hide Utf8.Encode, PayloadText;
    bytes := [];
    bytes := bytes + SignDomain();
    bytes := bytes + id;
    bytes := bytes + Utf8.Encode(PayloadText(p));
  }

  /** Two jobs with the same signing bytes are the same job. */
  lemma SigningBytesInjective(id: Uuid, p: JobPayload, id': Uuid, p': JobPayload)
    requires SigningBytes(id, p) == SigningBytes(id', p')
    ensures id == id' && p == p'
  {
    hide PayloadText, SignDomain, ReadPayload, Utf8.Encode;
    var n := |SignDomain()|;
    var b, b' := SigningBytes(id, p), SigningBytes(id', p');
    assert b[n..n + 16] == id && b'[n..n + 16] == id';
    assert b[n + 16..] == Utf8.Encode(PayloadText(p)) && b'[n + 16..] == Utf8.Encode(PayloadText(p'));
    Utf8.EncodeInjective(PayloadText(p), PayloadText(p'));
    PayloadRoundTrip(p);
    PayloadRoundTrip(p');
  }

  /** Serialising, parsing and serialising again leaves the signing bytes as they were. */
  lemma SigningBytesStable(id: Uuid, p: JobPayload)
    ensures ReadPayload(PayloadText(p)).Some?
    ensures SigningBytes(id, ReadPayload(PayloadText(p)).value) == SigningBytes(id, p)
  {
    PayloadRoundTrip(p);
  }
}
