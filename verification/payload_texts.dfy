/** What a stored payload means and how one is written, in the names of the documents themselves. */
module PayloadTexts {
  import opened Common
  import opened Json
  import opened Payloads
  import Utf8

  // ---- fields of an object ----

  /** Exactly one field has this name, and this is its value. */
  ghost predicate Has(fields: seq<Field>, name: string, v: Json) {
    exists i :: 0 <= i < |fields| && fields[i] == Field(name, v) && OnlyAt(fields, i, name)
  }

  ghost predicate OnlyAt(fields: seq<Field>, i: int, name: string) {
    forall j :: 0 <= j < |fields| && j != i ==> fields[j].name != name
  }

  predicate Lacks(fields: seq<Field>, name: string) { forall f :: f in fields ==> f.name != name }

  /** An enum without data: its name, or an object from its name to a unit. */
  predicate Names(v: Json, name: string) {
    v == Str(name) || v == Obj([Field(name, Null)]) || v == Obj([Field(name, Obj([]))])
  }

  /** An optional text: absent and null are None. */
  predicate Tells(v: Json, t: Option<string>) { v == match t case None => Null case Some(s) => Str(s) }

  ghost predicate HasName(fields: seq<Field>, key: string, name: string) {
    exists v :: Has(fields, key, v) && Names(v, name)
  }

  ghost predicate HasOption(fields: seq<Field>, key: string, t: Option<string>) {
    (t.None? && Lacks(fields, key)) || exists v :: Has(fields, key, v) && Tells(v, t)
  }

  predicate IsShell(shell: ShellType, name: string) {
    || (shell == Bash && name == "bash") || (shell == Powershell && name == "powershell")
    || (shell == Sh && name == "sh") || (shell == Cmd && name == "cmd")
  }

  predicate IsManager(m: PackageManager, name: string) {
    || (m == Winget && name == "winget") || (m == Chocolatey && name == "chocolatey")
    || (m == Homebrew && name == "homebrew") || (m == Apt && name == "apt")
    || (m == Dnf && name == "dnf") || (m == Pacman && name == "pacman")
  }

  ghost predicate HasShell(fields: seq<Field>, shell: ShellType) {
    exists name :: HasName(fields, "shell", name) && IsShell(shell, name)
  }

  ghost predicate HasManager(fields: seq<Field>, m: PackageManager) {
    exists name :: HasName(fields, "manager", name) && IsManager(m, name)
  }

  /** An object for this job: its tag and fields, each once, in any order, among fields that do not matter. */
  ghost predicate FieldsMean(fields: seq<Field>, p: JobPayload) {
    match p
    case RunScript(shell, script) =>
      Has(fields, "type", Str("run_script")) && HasShell(fields, shell) && Has(fields, "script", Str(script))
    case InstallPackage(m, package, version) =>
      && Has(fields, "type", Str("install_package")) && HasManager(fields, m)
      && Has(fields, "package", Str(package)) && HasOption(fields, "version", version)
    case UninstallPackage(m, package) =>
      && Has(fields, "type", Str("uninstall_package")) && HasManager(fields, m)
      && Has(fields, "package", Str(package))
    case PushFile(destination, content, permissions) =>
      && Has(fields, "type", Str("push_file")) && Has(fields, "destination", Str(destination))
      && Has(fields, "content_b64", Str(content)) && HasOption(fields, "permissions", permissions)
    case Reboot(delay) => Has(fields, "type", Str("reboot")) && Has(fields, "delay_seconds", Num(delay))
    case CollectInventory => Has(fields, "type", Str("collect_inventory"))
    case RunPatchUpdate(ids) =>
      Has(fields, "type", Str("run_patch_update")) && Has(fields, "patch_ids", Arr(Texts(ids)))
  }

  /** An array for this job: its tag, then all its fields in the order of their declaration. */
  ghost predicate ItemsMean(items: seq<Json>, p: JobPayload) {
    match p
    case RunScript(shell, script) =>
      && |items| == 3 && items[0] == Str("run_script") && items[2] == Str(script)
      && exists name :: Names(items[1], name) && IsShell(shell, name)
    case InstallPackage(m, package, version) =>
      && |items| == 4 && items[0] == Str("install_package") && items[2] == Str(package) && Tells(items[3], version)
      && exists name :: Names(items[1], name) && IsManager(m, name)
    case UninstallPackage(m, package) =>
      && |items| == 3 && items[0] == Str("uninstall_package") && items[2] == Str(package)
      && exists name :: Names(items[1], name) && IsManager(m, name)
    case PushFile(destination, content, permissions) =>
      && |items| == 4 && items[0] == Str("push_file") && items[1] == Str(destination)
      && items[2] == Str(content) && Tells(items[3], permissions)
    case Reboot(delay) => items == [Str("reboot"), Num(delay)]
    case CollectInventory => items == [Str("collect_inventory")]
    case RunPatchUpdate(ids) => items == [Str("run_patch_update"), Arr(Texts(ids))]
  }

  /** The document is one for this job. */
  ghost predicate Means(v: Json, p: JobPayload) {
    (v.Obj? && FieldsMean(v.fields, p)) || (v.Arr? && ItemsMean(v.items, p))
  }

  // ---- looking a field up ----

  lemma LacksFirst(first: Field, rest: seq<Field>, name: string)
    ensures Lacks([first] + rest, name) <==> first.name != name && Lacks(rest, name)
  {
    assert first in [first] + rest && forall f :: f in rest ==> f in [first] + rest;
  }

  lemma HasHere(first: Field, rest: seq<Field>, name: string, v: Json)
    requires first.name == name
    ensures Has([first] + rest, name, v) <==> first.value == v && Lacks(rest, name)
  {
    var fields := [first] + rest;
    assert forall j :: 0 <= j < |rest| ==> fields[j + 1] == rest[j] && rest[j] in rest;
    if Has(fields, name, v) {
      var i :| 0 <= i < |fields| && fields[i] == Field(name, v) && OnlyAt(fields, i, name);
      assert fields[0].name == name;
    } else if first.value == v && Lacks(rest, name) {
      assert OnlyAt(fields, 0, name);
    }
  }

  lemma HasLater(first: Field, rest: seq<Field>, name: string, v: Json)
    requires first.name != name
    ensures Has([first] + rest, name, v) <==> Has(rest, name, v)
  {
    var fields := [first] + rest;
    assert forall j :: 0 <= j < |rest| ==> fields[j + 1] == rest[j];
    forall i | 0 <= i < |rest|
      ensures OnlyAt(fields, i + 1, name) <==> OnlyAt(rest, i, name)
    {
      OnlyLater(first, rest, i, name);
    }
    hide OnlyAt;
    if Has(fields, name, v) {
      var i :| 0 <= i < |fields| && fields[i] == Field(name, v) && OnlyAt(fields, i, name);
      assert fields[i] == rest[i - 1] && OnlyAt(rest, i - 1, name);
    }
    if Has(rest, name, v) {
      var i :| 0 <= i < |rest| && rest[i] == Field(name, v) && OnlyAt(rest, i, name);
      assert fields[i + 1] == rest[i] && OnlyAt(fields, i + 1, name);
    }
  }

  lemma OnlyLater(first: Field, rest: seq<Field>, i: nat, name: string)
    requires first.name != name && i < |rest|
    ensures OnlyAt([first] + rest, i + 1, name) <==> OnlyAt(rest, i, name)
  {
    var fields := [first] + rest;
    if OnlyAt(fields, i + 1, name) {
      forall j | 0 <= j < |rest| && j != i
        ensures rest[j].name != name
      {
        assert fields[j + 1] == rest[j];
      }
    }
  }

  lemma {:induction false} HitsMean(fields: seq<Field>, name: string)
    ensures var hits := Filter(fields, (f: Field) => f.name == name);
      && (hits == [] <==> Lacks(fields, name))
      && (forall v :: Has(fields, name, v) <==> hits == [Field(name, v)])
      && (forall f :: f in hits ==> f.name == name)
  {
    hide Lacks, Has;
    if fields == [] {
      assert Lacks(fields, name) by { NoFields(name); }
      forall v
        ensures !Has(fields, name, v)
      {
        NoFields(name);
      }
    } else {
      var rest := Filter(fields[1..], (f: Field) => f.name == name);
      HitsMean(fields[1..], name);
      assert fields == [fields[0]] + fields[1..];
      LacksFirst(fields[0], fields[1..], name);
      forall v
        ensures Has(fields, name, v) <==> Filter(fields, (f: Field) => f.name == name) == [Field(name, v)]
      {
        if fields[0].name == name {
          HasHere(fields[0], fields[1..], name, v);
          assert [fields[0]] + rest == [Field(name, v)] <==> fields[0] == Field(name, v) && rest == [] by {
            if rest == [] {
              assert [fields[0]] + rest == [fields[0]];
            } else {
              assert |[fields[0]] + rest| > 1;
            }
          }
        } else {
          HasLater(fields[0], fields[1..], name, v);
        }
      }
    }
  }

  lemma NoFields(name: string)
    ensures Lacks([], name) && forall v :: !Has([], name, v)
  {}

  lemma LookupMeans(fields: seq<Field>, key: Key, name: string)
    requires KeyName(key) == name
    ensures Lookup(fields, key) == Missing <==> Lacks(fields, name)
    ensures forall v :: Lookup(fields, key) == One(v) <==> Has(fields, name, v)
  {
    hide KeyName, Lacks, Has;
    HitsMean(fields, name);
    var hits := Filter(fields, (f: Field) => f.name == KeyName(key));
    assert hits == Filter(fields, (f: Field) => f.name == name);
    if |hits| == 1 {
      assert hits[0] in hits && hits == [Field(name, hits[0].value)];
    }
  }

  lemma TextMeans(fields: seq<Field>, key: Key, name: string, s: string)
    requires KeyName(key) == name
    ensures Text(fields, key) == Some(s) <==> Has(fields, name, Str(s))
  {
    hide KeyName, Lacks, Has, Lookup;
    LookupMeans(fields, key, name);
  }

  lemma OptionMeans(fields: seq<Field>, key: Key, name: string, t: Option<string>)
    requires KeyName(key) == name
    ensures NullableText(fields, key) == Some(t) <==> HasOption(fields, name, t)
  {
    hide KeyName, Lacks, Has, Lookup;
    LookupMeans(fields, key, name);
  }

  lemma VariantMeans(fields: seq<Field>, key: Key, name: string, variant: string)
    requires KeyName(key) == name
    ensures VariantName(fields, key) == Some(variant) <==> HasName(fields, name, variant)
  {
    hide KeyName, Lacks, Has, Lookup;
    LookupMeans(fields, key, name);
    if VariantName(fields, key) == Some(variant) && Lookup(fields, key).value.Obj? {
      var inner := Lookup(fields, key).value.fields;
      assert inner == [Field(variant, inner[0].value)];
    }
  }

  lemma ReadShellMeans(name: string, shell: ShellType)
    ensures ReadShell(name) == Some(shell) <==> IsShell(shell, name)
  {}

  lemma ReadManagerMeans(name: string, m: PackageManager)
    ensures ReadManager(name) == Some(m) <==> IsManager(m, name)
  {
    assert "apt"[0] != "dnf"[0] && "winget"[0] != "pacman"[0];
  }

  lemma ReadTagMeans(name: string)
    ensures ReadTag(name) == Some(ScriptKind) <==> name == "run_script"
    ensures ReadTag(name) == Some(InstallKind) <==> name == "install_package"
    ensures ReadTag(name) == Some(UninstallKind) <==> name == "uninstall_package"
    ensures ReadTag(name) == Some(PushKind) <==> name == "push_file"
    ensures ReadTag(name) == Some(RebootKind) <==> name == "reboot"
    ensures ReadTag(name) == Some(InventoryKind) <==> name == "collect_inventory"
    ensures ReadTag(name) == Some(PatchKind) <==> name == "run_patch_update"
  {
    assert "uninstall_package"[0] != "collect_inventory"[0];
  }

  lemma {:induction false} ReadTextsMeans(items: seq<Json>, ids: seq<string>)
    ensures ReadTexts(items) == Some(ids) <==> items == Texts(ids)
  {
    if items == Texts(ids) {
      ReadPrintedTexts(ids);
    }
    if ReadTexts(items) == Some(ids) && items != [] {
      ReadTextsMeans(items[1..], ids[1..]);
      assert items == [items[0]] + items[1..];
      assert Texts(ids) == [Str(ids[0])] + Texts(ids[1..]);
    }
  }

  // ---- the two forms ----

  lemma ShellFieldMeans(fields: seq<Field>, shell: ShellType)
    ensures ShellField(fields) == Some(shell) <==> HasShell(fields, shell)
  {
    hide VariantName, HasName, ReadShell, IsShell;
    forall name
      ensures VariantName(fields, Shell) == Some(name) <==> HasName(fields, "shell", name)
      ensures ReadShell(name) == Some(shell) <==> IsShell(shell, name)
    {
      VariantMeans(fields, Shell, "shell", name);
      ReadShellMeans(name, shell);
    }
  }

  lemma ManagerFieldMeans(fields: seq<Field>, m: PackageManager)
    ensures ManagerField(fields) == Some(m) <==> HasManager(fields, m)
  {
    hide VariantName, HasName, ReadManager, IsManager;
    forall name
      ensures VariantName(fields, Manager) == Some(name) <==> HasName(fields, "manager", name)
      ensures ReadManager(name) == Some(m) <==> IsManager(m, name)
    {
      VariantMeans(fields, Manager, "manager", name);
      ReadManagerMeans(name, m);
    }
  }

  lemma ScriptMeans(fields: seq<Field>, p: JobPayload)
    ensures ReadBody(ScriptKind, fields) == Some(p) <==>
              p.RunScript? && HasShell(fields, p.shell) && Has(fields, "script", Str(p.script))
  {
    hide ShellField, Text, HasShell, Has;
    var q := if p.RunScript? then p else RunScript(Sh, "");
    ShellFieldMeans(fields, q.shell);
    TextMeans(fields, Script, "script", q.script);
  }

  lemma InstallMeans(fields: seq<Field>, p: JobPayload)
    ensures ReadBody(InstallKind, fields) == Some(p) <==>
              p.InstallPackage? && HasManager(fields, p.manager) && Has(fields, "package", Str(p.package))
                && HasOption(fields, "version", p.version)
  {
    hide ManagerField, Text, NullableText, HasManager, Has, HasOption;
    var q := if p.InstallPackage? then p else InstallPackage(Apt, "", None);
    ManagerFieldMeans(fields, q.manager);
    TextMeans(fields, Package, "package", q.package);
    OptionMeans(fields, Version, "version", q.version);
  }

  lemma UninstallMeans(fields: seq<Field>, p: JobPayload)
    ensures ReadBody(UninstallKind, fields) == Some(p) <==>
              p.UninstallPackage? && HasManager(fields, p.manager) && Has(fields, "package", Str(p.package))
  {
    hide ManagerField, Text, HasManager, Has;
    var q := if p.UninstallPackage? then p else UninstallPackage(Apt, "");
    ManagerFieldMeans(fields, q.manager);
    TextMeans(fields, Package, "package", q.package);
  }

  lemma PushMeans(fields: seq<Field>, p: JobPayload)
    ensures ReadBody(PushKind, fields) == Some(p) <==>
              p.PushFile? && Has(fields, "destination", Str(p.destination))
                && Has(fields, "content_b64", Str(p.contentB64)) && HasOption(fields, "permissions", p.permissions)
  {
    hide Text, NullableText, Has, HasOption;
    var q := if p.PushFile? then p else PushFile("", "", None);
    TextMeans(fields, Destination, "destination", q.destination);
    TextMeans(fields, ContentB64, "content_b64", q.contentB64);
    OptionMeans(fields, Permissions, "permissions", q.permissions);
  }

  lemma RebootMeans(fields: seq<Field>, p: JobPayload)
    ensures ReadBody(RebootKind, fields) == Some(p) <==>
              p.Reboot? && Has(fields, "delay_seconds", Num(p.delaySeconds))
  {
    hide Lookup, Has;
    LookupMeans(fields, DelaySeconds, "delay_seconds");
  }

  lemma PatchMeans(fields: seq<Field>, p: JobPayload)
    ensures ReadBody(PatchKind, fields) == Some(p) <==>
              p.RunPatchUpdate? && Has(fields, "patch_ids", Arr(Texts(p.patchIds)))
  {
    hide Lookup, Has, ReadTexts, Texts;
    LookupMeans(fields, PatchIds, "patch_ids");
    var ids := if p.RunPatchUpdate? then p.patchIds else [];
    if Lookup(fields, PatchIds).One? && Lookup(fields, PatchIds).value.Arr? {
      ReadTextsMeans(Lookup(fields, PatchIds).value.items, ids);
    }
    ReadTextsMeans(Texts(ids), ids);
  }

  lemma InventoryMeans(fields: seq<Field>, p: JobPayload)
    ensures ReadBody(InventoryKind, fields) == Some(p) <==> p.CollectInventory?
  {}

  lemma TagMeans(fields: seq<Field>, p: JobPayload, tag: string)
    requires ReadTag(tag) == Some(KindOf(p))
    ensures FromJson(Obj(fields)) == Some(p) <==>
              Has(fields, "type", Str(tag)) && ReadBody(KindOf(p), fields) == Some(p)
  {
    hide Text, ReadTag, Has, Lookup;
    TextMeans(fields, Type, "type", tag);
    if Text(fields, Type).Some? {
      ReadTagMeans(Text(fields, Type).value);
    }
    ReadTagMeans(tag);
  }

  lemma ObjectMeans(fields: seq<Field>, p: JobPayload)
    ensures FromJson(Obj(fields)) == Some(p) <==> FieldsMean(fields, p)
  {
    hide ReadBody, Has, HasShell, HasManager, HasOption, Texts, FromJson;
    match p
    case RunScript(_, _) => TagMeans(fields, p, "run_script"); ScriptMeans(fields, p);
    case InstallPackage(_, _, _) => TagMeans(fields, p, "install_package"); InstallMeans(fields, p);
    case UninstallPackage(_, _) => TagMeans(fields, p, "uninstall_package"); UninstallMeans(fields, p);
    case PushFile(_, _, _) => TagMeans(fields, p, "push_file"); PushMeans(fields, p);
    case Reboot(_) => TagMeans(fields, p, "reboot"); RebootMeans(fields, p);
    case CollectInventory => TagMeans(fields, p, "collect_inventory"); InventoryMeans(fields, p);
    case RunPatchUpdate(_) => TagMeans(fields, p, "run_patch_update"); PatchMeans(fields, p);
  }

  /** By position every field is there once. */
  lemma PositionalHas(keys: seq<Key>, items: seq<Json>, i: nat, name: string)
    requires |items| == |keys| + 1 && i < |keys| && KeyName(keys[i]) == name
    requires forall j, k :: 0 <= j < k < |keys| ==> keys[j] != keys[k]
    ensures forall v :: Has(Positional(keys, items), name, v) <==> v == items[i + 1]
    ensures !Lacks(Positional(keys, items), name)
  {
    var fields := Positional(keys, items);
    forall j | 0 <= j < |fields| && j != i
      ensures fields[j].name != name
    {
      if fields[j].name == name {
        KeysDistinct(keys[i], keys[j]);
      }
    }
    hide KeyName;
    assert fields[i] in fields && fields[i] == Field(name, items[i + 1]) && OnlyAt(fields, i, name);
  }

  lemma ArrayOfKind(items: seq<Json>, p: JobPayload, tag: string)
    requires ReadTag(tag) == Some(KindOf(p))
    ensures FromJson(Arr(items)) == Some(p) <==>
              && |items| == |BodyKeys(KindOf(p))| + 1 && items[0] == Str(tag)
              && ReadBody(KindOf(p), Positional(BodyKeys(KindOf(p)), items)) == Some(p)
  {
    hide ReadTag, Lookup, Positional;
    ReadTagMeans(tag);
    if items != [] && items[0].Str? {
      ReadTagMeans(items[0].s);
    }
  }

  lemma ScriptArray(items: seq<Json>, p: JobPayload)
    requires p.RunScript?
    ensures FromJson(Arr(items)) == Some(p) <==> ItemsMean(items, p)
  {
    hide ReadBody, Has, Texts, FromJson, Positional, Names, IsShell, IsManager, Lacks;
    ArrayOfKind(items, p, "run_script");
    if |items| == 3 {
      var fields := Positional(BodyKeys(ScriptKind), items);
      ScriptMeans(fields, p);
      PositionalHas(BodyKeys(ScriptKind), items, 0, "shell");
      PositionalHas(BodyKeys(ScriptKind), items, 1, "script");
    }
  }

  lemma InstallArray(items: seq<Json>, p: JobPayload)
    requires p.InstallPackage?
    ensures FromJson(Arr(items)) == Some(p) <==> ItemsMean(items, p)
  {
    hide ReadBody, Has, Texts, FromJson, Positional, Names, IsShell, IsManager, Lacks;
    ArrayOfKind(items, p, "install_package");
    if |items| == 4 {
      var fields := Positional(BodyKeys(InstallKind), items);
      InstallMeans(fields, p);
      PositionalHas(BodyKeys(InstallKind), items, 0, "manager");
      PositionalHas(BodyKeys(InstallKind), items, 1, "package");
      PositionalHas(BodyKeys(InstallKind), items, 2, "version");
    }
  }

  lemma UninstallArray(items: seq<Json>, p: JobPayload)
    requires p.UninstallPackage?
    ensures FromJson(Arr(items)) == Some(p) <==> ItemsMean(items, p)
  {
    hide ReadBody, Has, Texts, FromJson, Positional, Names, IsShell, IsManager, Lacks;
    ArrayOfKind(items, p, "uninstall_package");
    if |items| == 3 {
      var fields := Positional(BodyKeys(UninstallKind), items);
      UninstallMeans(fields, p);
      PositionalHas(BodyKeys(UninstallKind), items, 0, "manager");
      PositionalHas(BodyKeys(UninstallKind), items, 1, "package");
    }
  }

  lemma PushArray(items: seq<Json>, p: JobPayload)
    requires p.PushFile?
    ensures FromJson(Arr(items)) == Some(p) <==> ItemsMean(items, p)
  {
    hide ReadBody, Has, Texts, FromJson, Positional, Names, IsShell, IsManager, Lacks;
    ArrayOfKind(items, p, "push_file");
    if |items| == 4 {
      var fields := Positional(BodyKeys(PushKind), items);
      PushMeans(fields, p);
      PositionalHas(BodyKeys(PushKind), items, 0, "destination");
      PositionalHas(BodyKeys(PushKind), items, 1, "content_b64");
      PositionalHas(BodyKeys(PushKind), items, 2, "permissions");
    }
  }

  lemma RebootArray(items: seq<Json>, p: JobPayload)
    requires p.Reboot?
    ensures FromJson(Arr(items)) == Some(p) <==> ItemsMean(items, p)
  {
    hide ReadBody, Has, Texts, FromJson, Positional, Names, IsShell, IsManager, Lacks;
    ArrayOfKind(items, p, "reboot");
    if |items| == 2 {
      var fields := Positional(BodyKeys(RebootKind), items);
      RebootMeans(fields, p);
      PositionalHas(BodyKeys(RebootKind), items, 0, "delay_seconds");
      assert items == [items[0], items[1]];
    }
  }

  lemma InventoryArray(items: seq<Json>, p: JobPayload)
    requires p.CollectInventory?
    ensures FromJson(Arr(items)) == Some(p) <==> ItemsMean(items, p)
  {
    hide ReadBody, Has, Texts, FromJson, Positional, Names, IsShell, IsManager, Lacks;
    ArrayOfKind(items, p, "collect_inventory");
    if |items| == 1 {
      var fields := Positional(BodyKeys(InventoryKind), items);
      InventoryMeans(fields, p);
      assert items == [items[0]];
    }
  }

  lemma PatchArray(items: seq<Json>, p: JobPayload)
    requires p.RunPatchUpdate?
    ensures FromJson(Arr(items)) == Some(p) <==> ItemsMean(items, p)
  {
    hide ReadBody, Has, Texts, FromJson, Positional, Names, IsShell, IsManager, Lacks;
    ArrayOfKind(items, p, "run_patch_update");
    if |items| == 2 {
      var fields := Positional(BodyKeys(PatchKind), items);
      PatchMeans(fields, p);
      PositionalHas(BodyKeys(PatchKind), items, 0, "patch_ids");
      assert items == [items[0], items[1]];
    }
  }

  lemma ArrayMeans(items: seq<Json>, p: JobPayload)
    ensures FromJson(Arr(items)) == Some(p) <==> ItemsMean(items, p)
  {
    hide FromJson, ItemsMean;
    match p
    case RunScript(_, _) => ScriptArray(items, p);
    case InstallPackage(_, _, _) => InstallArray(items, p);
    case UninstallPackage(_, _) => UninstallArray(items, p);
    case PushFile(_, _, _) => PushArray(items, p);
    case Reboot(_) => RebootArray(items, p);
    case CollectInventory => InventoryArray(items, p);
    case RunPatchUpdate(_) => PatchArray(items, p);
  }

  /** A stored document is read as a job if and only if it is one for that job. */
  lemma PayloadMeans(v: Json, p: JobPayload)
    ensures FromJson(v) == Some(p) <==> Means(v, p)
  {
    hide FieldsMean, ItemsMean, ReadFields, ReadArray;
    match v
    case Obj(fields) => ObjectMeans(fields, p);
    case Arr(items) => ArrayMeans(items, p);
    case _ =>
  }

  /** A document that is one for no job is refused. */
  lemma RefusedMeans(v: Json)
    ensures FromJson(v) == None <==> forall p :: !Means(v, p)
  {
    hide FromJson, Means;
    forall p
      ensures FromJson(v) == Some(p) <==> Means(v, p)
    {
      PayloadMeans(v, p);
    }
  }

  // ---- documents written out ----

  lemma HasIn(fields: seq<Field>, i: nat)
    requires i < |fields| && DistinctNames(fields)
    ensures Has(fields, fields[i].name, fields[i].value)
  {
    assert OnlyAt(fields, i, fields[i].name);
  }

  /** An optional field that is left out, null, or given. */
  ghost predicate Optional(fields: seq<Field>, name: string, t: Option<string>) {
    (t.None? && fields == []) || exists v :: Tells(v, t) && fields == [Field(name, v)]
  }

  lemma OptionalField(fields: seq<Field>, more: seq<Field>, name: string, t: Option<string>)
    requires Optional(more, name, t) && DistinctNames(fields + more) && Lacks(fields, name)
    ensures HasOption(fields + more, name, t)
  {
    if more != [] {
      HasIn(fields + more, |fields|);
    } else {
      assert fields + more == fields;
    }
  }

  /** Documents as an API client writes them. */
  lemma ScriptDocument(shell: ShellType, name: string, script: string)
    requires IsShell(shell, name)
    ensures FromJson(Obj([Field("type", Str("run_script")), Field("shell", Str(name)), Field("script", Str(script))]))
        == Some(RunScript(shell, script))
  {
    hide FromJson, Has;
    var fields := [Field("type", Str("run_script")), Field("shell", Str(name)), Field("script", Str(script))];
    HasIn(fields, 0);
    HasIn(fields, 1);
    HasIn(fields, 2);
    assert HasName(fields, "shell", name);
    ObjectMeans(fields, RunScript(shell, script));
  }

  lemma InstallDocument(m: PackageManager, name: string, package: string, more: seq<Field>, version: Option<string>)
    requires IsManager(m, name) && Optional(more, "version", version)
    ensures FromJson(Obj([Field("type", Str("install_package")), Field("manager", Str(name)),
                          Field("package", Str(package))] + more))
        == Some(InstallPackage(m, package, version))
  {
    hide FromJson, Has;
    var head := [Field("type", Str("install_package")), Field("manager", Str(name)), Field("package", Str(package))];
    var fields := head + more;
    assert fields[0] == head[0] && fields[1] == head[1] && fields[2] == head[2];
    HasIn(fields, 0);
    HasIn(fields, 1);
    HasIn(fields, 2);
    assert HasName(fields, "manager", name);
    OptionalField(head, more, "version", version);
    ObjectMeans(fields, InstallPackage(m, package, version));
  }

  lemma UninstallDocument(m: PackageManager, name: string, package: string)
    requires IsManager(m, name)
    ensures FromJson(Obj([Field("type", Str("uninstall_package")), Field("manager", Str(name)),
                          Field("package", Str(package))]))
        == Some(UninstallPackage(m, package))
  {
    hide FromJson, Has;
    var fields :=
      [Field("type", Str("uninstall_package")), Field("manager", Str(name)), Field("package", Str(package))];
    HasIn(fields, 0);
    HasIn(fields, 1);
    HasIn(fields, 2);
    assert HasName(fields, "manager", name);
    ObjectMeans(fields, UninstallPackage(m, package));
  }

  lemma PushDocument(destination: string, content: string, more: seq<Field>, permissions: Option<string>)
    requires Optional(more, "permissions", permissions)
    ensures FromJson(Obj([Field("type", Str("push_file")), Field("destination", Str(destination)),
                          Field("content_b64", Str(content))] + more))
        == Some(PushFile(destination, content, permissions))
  {
    hide FromJson, Has;
    var head :=
      [Field("type", Str("push_file")), Field("destination", Str(destination)), Field("content_b64", Str(content))];
    var fields := head + more;
    assert fields[0] == head[0] && fields[1] == head[1] && fields[2] == head[2];
    HasIn(fields, 0);
    HasIn(fields, 1);
    HasIn(fields, 2);
    OptionalField(head, more, "permissions", permissions);
    ObjectMeans(fields, PushFile(destination, content, permissions));
  }

  lemma OtherDocuments(delay: U32, ids: seq<string>)
    ensures FromJson(Obj([Field("type", Str("reboot")), Field("delay_seconds", Num(delay))])) == Some(Reboot(delay))
    ensures FromJson(Obj([Field("type", Str("collect_inventory"))])) == Some(CollectInventory)
    ensures FromJson(Obj([Field("type", Str("run_patch_update")), Field("patch_ids", Arr(Texts(ids)))]))
        == Some(RunPatchUpdate(ids))
  {
    hide FromJson, Has, Texts;
    var reboot := [Field("type", Str("reboot")), Field("delay_seconds", Num(delay))];
    var inventory := [Field("type", Str("collect_inventory"))];
    var patch := [Field("type", Str("run_patch_update")), Field("patch_ids", Arr(Texts(ids)))];
    HasIn(reboot, 0);
    HasIn(reboot, 1);
    HasIn(inventory, 0);
    HasIn(patch, 0);
    HasIn(patch, 1);
    ObjectMeans(reboot, Reboot(delay));
    ObjectMeans(inventory, CollectInventory);
    ObjectMeans(patch, RunPatchUpdate(ids));
  }

  // ---- what is signed ----

  lemma {:induction false} PlainEscape(s: string)
    requires forall c :: c in s ==> c >= ' ' && c != '"' && c != '\\'
    ensures Escape(s) == s
  {
    if s != "" {
      assert s[0] in s && forall c :: c in s[1..] ==> c in s;
      assert EscapeChar(s[0]) == [s[0]];
      hide EscapeChar;
      PlainEscape(s[1..]);
      assert [s[0]] + s[1..] == s;
    }
  }

  function Entry(): Field -> string { (f: Field) => "\"" + f.name + "\":" + Print(f.value) }

  predicate PlainName(f: Field) { forall c :: c in f.name ==> c >= ' ' && c != '"' && c != '\\' }

  lemma {:induction false} FieldsText(fields: seq<Field>)
    requires forall f :: f in fields ==> PlainName(f)
    ensures PrintFields(fields) == Join(Map(fields, Entry()), ",")
  {
    hide Print;
    if fields != [] {
      var entries := Map(fields, Entry());
      assert fields[0] in fields && forall f :: f in fields[1..] ==> f in fields;
      PlainEscape(fields[0].name);
      assert entries[1..] == Map(fields[1..], Entry());
      FieldsText(fields[1..]);
    }
  }

  /** The fields written for a job, in the order of their declaration. */
  lemma WrittenScript(shell: ShellType, name: string, script: string)
    requires IsShell(shell, name)
    ensures Fields(RunScript(shell, script))
        == [Field("type", Str("run_script")), Field("shell", Str(name)), Field("script", Str(script))]
  {}

  lemma WrittenPackages(m: PackageManager, name: string, package: string, version: Option<string>)
    requires IsManager(m, name)
    ensures Fields(InstallPackage(m, package, version))
         == [Field("type", Str("install_package")), Field("manager", Str(name)), Field("package", Str(package)),
             Field("version", if version.None? then Null else Str(version.value))]
    ensures Fields(UninstallPackage(m, package))
         == [Field("type", Str("uninstall_package")), Field("manager", Str(name)), Field("package", Str(package))]
  {
    assert Field("manager", Str(name)) == F(Manager, Str(ManagerName(m)));
    hide ManagerName, IsManager;
  }

  lemma WrittenFile(destination: string, content: string, permissions: Option<string>)
    ensures Fields(PushFile(destination, content, permissions))
         == [Field("type", Str("push_file")), Field("destination", Str(destination)),
             Field("content_b64", Str(content)),
             Field("permissions", if permissions.None? then Null else Str(permissions.value))]
  {}

  lemma WrittenOthers(delay: U32, ids: seq<string>)
    ensures Fields(Reboot(delay)) == [Field("type", Str("reboot")), Field("delay_seconds", Num(delay))]
    ensures Fields(CollectInventory) == [Field("type", Str("collect_inventory"))]
    ensures Fields(RunPatchUpdate(ids)) == [Field("type", Str("run_patch_update")), Field("patch_ids", Arr(Texts(ids)))]
  {
    hide Texts;
  }

  lemma NamesArePlain(p: JobPayload)
    ensures forall f :: f in Fields(p) ==> PlainName(f)
  {
    hide Texts, ShellName, ManagerName, Tag;
    forall k
      ensures forall c :: c in KeyName(k) ==> c >= ' ' && c != '"' && c != '\\'
    {}
    hide KeyName;
  }

  /** What is signed: 20 ASCII characters and a NUL, the id, and the document without white space as UTF-8. */
  lemma SignedBytes(id: Uuid, p: JobPayload)
    ensures var b, domain := SigningBytes(id, p), "OSFM-EDM-JOB-SIGN-v1\0";
      && |b| >= 37 && (forall i :: 0 <= i < 21 ==> b[i] == domain[i] as int)
      && b[21..37] == id
      && b[37..] == Utf8.Encode("{" + Join(Map(Fields(p), Entry()), ",") + "}")
  {
    hide Fields, Utf8.Encode, Print;
    NamesArePlain(p);
    FieldsText(Fields(p));
    Utf8.AsciiEncode("OSFM-EDM-JOB-SIGN-v1");
    assert PayloadText(p) == "{" + Join(Map(Fields(p), Entry()), ",") + "}" by { ObjectPrints(Fields(p)); }
  }

  lemma ObjectPrints(fields: seq<Field>)
    ensures Print(Obj(fields)) == "{" + PrintFields(fields) + "}"
  {}
}
