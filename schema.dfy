/**
 * The structural validation of `cosmikase/schema.py`: the record shapes of
 * the configuration (required fields, defaults, the installer method
 * enumeration), the shorthand expansion of bare strings in `npm` and
 * `uv_tools` that runs before validation, and the all-or-nothing verdict of
 * `validate_config`.
 *
 * Each record has a validity predicate (`ValidPackageItem`, `ValidApt`, ...,
 * `ValidDocument`) that states its rules declaratively, and a parser
 * (`ParsePackageItem`, `ParseApt`, ..., `ParseConfig`) that is proved to
 * succeed exactly on the valid inputs and to read every field by its rule.
 */
module Schema {
  import opened Wrappers
  import opened Yaml
  import opened Lists

  // ---------------------------------------------------------------------------
  // Violations

  /** A step of the location of a violation: a mapping key or a list index. */
  datatype Segment = Key(k: string) | Index(i: nat)

  datatype Problem =
    | Missing                      // a required field is absent
    | WrongType                    // a field holds a value of the wrong kind
    | UnknownMethod(given: string) // an installer `method` outside the enumeration

  datatype Violation = Violation(loc: seq<Segment>, problem: Problem)

  type Checked<T> = Result<T, Violation>

  /** The same violation, seen from one level further out. */
  function Within(seg: Segment, v: Violation): (r: Violation)
    ensures r.loc == [seg] + v.loc && r.problem == v.problem
  {
    Violation([seg] + v.loc, v.problem)
  }

  function Nest<T>(k: string, r: Checked<T>): (r': Checked<T>)
    ensures r'.Success? <==> r.Success?
    ensures r.Success? ==> r' == r
  {
    match r
    case Success(_) => r
    case Failure(e) => Failure(Within(Key(k), e))
  }

  // ---------------------------------------------------------------------------
  // Field rules: `name: str`, `desc: str | None = None`, `install: bool = True`, `theme: str = "nord"`

  predicate IsStrAt(m: map<string, Value>, k: string) {
    k in m && m[k].Str?
  }

  predicate OptionalStrOk(m: map<string, Value>, k: string) {
    k !in m || m[k].Null? || m[k].Str?
  }

  predicate FlagOk(m: map<string, Value>, k: string) {
    k !in m || m[k].Bool?
  }

  predicate TextOk(m: map<string, Value>, k: string) {
    k !in m || m[k].Str?
  }

  /** The value an optional string field is read as: the string if one is given. */
  function OptValue(m: map<string, Value>, k: string): Option<string> {
    if IsStrAt(m, k) then Some(m[k].s) else None
  }

  /** The value a boolean field with a default is read as. */
  function FlagValue(m: map<string, Value>, k: string, default: bool): bool {
    if k in m && m[k].Bool? then m[k].b else default
  }

  /** The value a string field with a default is read as. */
  function TextValue(m: map<string, Value>, k: string, default: string): string {
    if IsStrAt(m, k) then m[k].s else default
  }

  /** A required string field. */
  function RequiredStr(m: map<string, Value>, k: string): (r: Checked<string>)
    ensures r.Success? <==> IsStrAt(m, k)
    ensures r.Success? ==> r.value == m[k].s
    ensures k !in m ==> r == Failure(Violation([Key(k)], Missing))
  {
    if k !in m then Failure(Violation([Key(k)], Missing))
    else if m[k].Str? then Success(m[k].s)
    else Failure(Violation([Key(k)], WrongType))
  }

  /** An optional string field that defaults to None; an explicit null is None too. */
  function OptionalStr(m: map<string, Value>, k: string): (r: Checked<Option<string>>)
    ensures r.Success? <==> OptionalStrOk(m, k)
    ensures r.Success? ==> r.value == OptValue(m, k)
  {
    if k !in m || m[k].Null? then Success(None)
    else if m[k].Str? then Success(Some(m[k].s))
    else Failure(Violation([Key(k)], WrongType))
  }

  /** A boolean field with a default; null is not a boolean. */
  function Flag(m: map<string, Value>, k: string, default: bool): (r: Checked<bool>)
    ensures r.Success? <==> FlagOk(m, k)
    ensures r.Success? ==> r.value == FlagValue(m, k, default)
  {
    if k !in m then Success(default)
    else if m[k].Bool? then Success(m[k].b)
    else Failure(Violation([Key(k)], WrongType))
  }

  /** A string field with a default; null is not a string. */
  function Text(m: map<string, Value>, k: string, default: string): (r: Checked<string>)
    ensures r.Success? <==> TextOk(m, k)
    ensures r.Success? ==> r.value == TextValue(m, k, default)
  {
    if k !in m then Success(default)
    else if m[k].Str? then Success(m[k].s)
    else Failure(Violation([Key(k)], WrongType))
  }

  /** A mapping is required where a record is expected. */
  const NotAMapping := Violation([], WrongType)

  // ---------------------------------------------------------------------------
  // Item records

  datatype PackageItem = PackageItem(
    name: string, desc: Option<string>, install: bool,
    alias: Option<string>, source: Option<string>, note: Option<string>)

  predicate ValidPackageItem(v: Value) {
    v.Object? && IsStrAt(v.fields, "name") && OptionalStrOk(v.fields, "desc") && FlagOk(v.fields, "install") &&
    OptionalStrOk(v.fields, "alias") && OptionalStrOk(v.fields, "source") && OptionalStrOk(v.fields, "note")
  }

  /** An APT package: `name` required, `install` defaults to true. */
  function ParsePackageItem(v: Value): (r: Checked<PackageItem>)
    ensures r.Success? <==> ValidPackageItem(v)
    ensures r.Success? ==> r.value == PackageItem(
      v.fields["name"].s, OptValue(v.fields, "desc"), FlagValue(v.fields, "install", true),
      OptValue(v.fields, "alias"), OptValue(v.fields, "source"), OptValue(v.fields, "note"))
  {
    if !v.Object? then Failure(NotAMapping)
    else
      var m := v.fields;
      var name :- RequiredStr(m, "name");
      var desc :- OptionalStr(m, "desc");
      var install :- Flag(m, "install", true);
      var alias :- OptionalStr(m, "alias");
      var source :- OptionalStr(m, "source");
      var note :- OptionalStr(m, "note");
      Success(PackageItem(name, desc, install, alias, source, note))
  }

  datatype FlatpakItem = FlatpakItem(id: string, desc: Option<string>, install: bool)

  predicate ValidFlatpakItem(v: Value) {
    v.Object? && IsStrAt(v.fields, "id") && OptionalStrOk(v.fields, "desc") && FlagOk(v.fields, "install")
  }

  /** A Flatpak application: `id` required, `install` defaults to true. */
  function ParseFlatpakItem(v: Value): (r: Checked<FlatpakItem>)
    ensures r.Success? <==> ValidFlatpakItem(v)
    ensures r.Success? ==> r.value == FlatpakItem(
      v.fields["id"].s, OptValue(v.fields, "desc"), FlagValue(v.fields, "install", true))
  {
    if !v.Object? then Failure(NotAMapping)
    else
      var m := v.fields;
      var id :- RequiredStr(m, "id");
      var desc :- OptionalStr(m, "desc");
      var install :- Flag(m, "install", true);
      Success(FlatpakItem(id, desc, install))
  }

  datatype FontItem = FontItem(name: string, desc: Option<string>, url: string, install: bool)

  predicate ValidFontItem(v: Value) {
    v.Object? && IsStrAt(v.fields, "name") && OptionalStrOk(v.fields, "desc") && IsStrAt(v.fields, "url") &&
    FlagOk(v.fields, "install")
  }

  /** A font: `name` and `url` required, `install` defaults to true. */
  function ParseFontItem(v: Value): (r: Checked<FontItem>)
    ensures r.Success? <==> ValidFontItem(v)
    ensures r.Success? ==> r.value == FontItem(
      v.fields["name"].s, OptValue(v.fields, "desc"), v.fields["url"].s, FlagValue(v.fields, "install", true))
  {
    if !v.Object? then Failure(NotAMapping)
    else
      var m := v.fields;
      var name :- RequiredStr(m, "name");
      var desc :- OptionalStr(m, "desc");
      var url :- RequiredStr(m, "url");
      var install :- Flag(m, "install", true);
      Success(FontItem(name, desc, url, install))
  }

  /** The ten supported install mechanisms of a custom installer. */
  datatype Method =
    | Script | Deb | Npm | Bun | Tarball
    | CustomNvm | CustomAntigravity | CustomBrave | CustomDangerzone | Manual

  /** The literal each method is written as. */
  function MethodName(meth: Method): string {
    match meth
    case Script => "script"
    case Deb => "deb"
    case Npm => "npm"
    case Bun => "bun"
    case Tarball => "tarball"
    case CustomNvm => "custom_nvm"
    case CustomAntigravity => "custom_antigravity"
    case CustomBrave => "custom_brave"
    case CustomDangerzone => "custom_dangerzone"
    case Manual => "manual"
  }

  const MethodNames: set<string> := {
    "script", "deb", "npm", "bun", "tarball",
    "custom_nvm", "custom_antigravity", "custom_brave", "custom_dangerzone", "manual"
  }

  /** Reading a `method` literal: defined exactly on the enumeration, and inverse to MethodName. */
  function ParseMethod(s: string): (r: Option<Method>)
    ensures r.Some? <==> s in MethodNames
    ensures r.Some? ==> MethodName(r.value) == s
  {
    if s == "script" then Some(Script)
    else if s == "deb" then Some(Deb)
    else if s == "npm" then Some(Npm)
    else if s == "bun" then Some(Bun)
    else if s == "tarball" then Some(Tarball)
    else if s == "custom_nvm" then Some(CustomNvm)
    else if s == "custom_antigravity" then Some(CustomAntigravity)
    else if s == "custom_brave" then Some(CustomBrave)
    else if s == "custom_dangerzone" then Some(CustomDangerzone)
    else if s == "manual" then Some(Manual)
    else None
  }

  /** Every method reads back from its own literal, so the ten literals are distinct. */
  lemma MethodRoundTrip(meth: Method)
    ensures MethodName(meth) in MethodNames
    ensures ParseMethod(MethodName(meth)) == Some(meth)
  {
  }

  /** The installer `method` field: required, a string, one of the ten literals. */
  function MethodField(m: map<string, Value>): (r: Checked<Method>)
    ensures r.Success? <==> IsStrAt(m, "method") && m["method"].s in MethodNames
    ensures r.Success? ==> MethodName(r.value) == m["method"].s
  {
    var literal :- RequiredStr(m, "method");
    match ParseMethod(literal)
    case Some(meth) => Success(meth)
    case None => Failure(Violation([Key("method")], UnknownMethod(literal)))
  }

  datatype InstallerItem = InstallerItem(
    name: string, desc: Option<string>, mechanism: Method,
    url: Option<string>, debUrl: Option<string>, npmPackage: Option<string>, bunPackage: Option<string>,
    args: Option<string>, check: Option<string>, note: Option<string>, install: bool)

  predicate ValidInstallerItem(v: Value) {
    v.Object? && IsStrAt(v.fields, "name") && OptionalStrOk(v.fields, "desc") &&
    IsStrAt(v.fields, "method") && v.fields["method"].s in MethodNames &&
    OptionalStrOk(v.fields, "url") && OptionalStrOk(v.fields, "deb_url") &&
    OptionalStrOk(v.fields, "npm_package") && OptionalStrOk(v.fields, "bun_package") &&
    OptionalStrOk(v.fields, "args") && OptionalStrOk(v.fields, "check") && OptionalStrOk(v.fields, "note") &&
    FlagOk(v.fields, "install")
  }

  /** A custom installer: `name` and an enumerated `method` required, `install` defaults to true. */
  function ParseInstallerItem(v: Value): (r: Checked<InstallerItem>)
    ensures r.Success? <==> ValidInstallerItem(v)
    ensures r.Success? ==>
      r.value.name == v.fields["name"].s && MethodName(r.value.mechanism) == v.fields["method"].s &&
      r.value.desc == OptValue(v.fields, "desc") && r.value.url == OptValue(v.fields, "url") &&
      r.value.debUrl == OptValue(v.fields, "deb_url") && r.value.npmPackage == OptValue(v.fields, "npm_package") &&
      r.value.bunPackage == OptValue(v.fields, "bun_package") && r.value.args == OptValue(v.fields, "args") &&
      r.value.check == OptValue(v.fields, "check") && r.value.note == OptValue(v.fields, "note") &&
      r.value.install == FlagValue(v.fields, "install", true)
  {
    if !v.Object? then Failure(NotAMapping)
    else
      var m := v.fields;
      var name :- RequiredStr(m, "name");
      var desc :- OptionalStr(m, "desc");
      var meth :- MethodField(m);
      var url :- OptionalStr(m, "url");
      var debUrl :- OptionalStr(m, "deb_url");
      var npmPackage :- OptionalStr(m, "npm_package");
      var bunPackage :- OptionalStr(m, "bun_package");
      var args :- OptionalStr(m, "args");
      var check :- OptionalStr(m, "check");
      var note :- OptionalStr(m, "note");
      var install :- Flag(m, "install", true);
      Success(InstallerItem(name, desc, meth, url, debUrl, npmPackage, bunPackage, args, check, note, install))
  }

  datatype NpmItem = NpmItem(name: string, desc: Option<string>, version: string, install: bool)

  predicate ValidNpmItem(v: Value) {
    v.Object? && IsStrAt(v.fields, "name") && OptionalStrOk(v.fields, "desc") &&
    TextOk(v.fields, "version") && FlagOk(v.fields, "install")
  }

  /** An npm package: `name` required, `version` defaults to "latest", `install` to true. */
  function ParseNpmItem(v: Value): (r: Checked<NpmItem>)
    ensures r.Success? <==> ValidNpmItem(v)
    ensures r.Success? ==> r.value == NpmItem(
      v.fields["name"].s, OptValue(v.fields, "desc"), TextValue(v.fields, "version", "latest"),
      FlagValue(v.fields, "install", true))
  {
    if !v.Object? then Failure(NotAMapping)
    else
      var m := v.fields;
      var name :- RequiredStr(m, "name");
      var desc :- OptionalStr(m, "desc");
      var version :- Text(m, "version", "latest");
      var install :- Flag(m, "install", true);
      Success(NpmItem(name, desc, version, install))
  }

  datatype UvToolItem = UvToolItem(name: string, desc: Option<string>, install: bool)

  predicate ValidUvToolItem(v: Value) {
    v.Object? && IsStrAt(v.fields, "name") && OptionalStrOk(v.fields, "desc") && FlagOk(v.fields, "install")
  }

  /** A uv tool: `name` required, `install` defaults to true. */
  function ParseUvToolItem(v: Value): (r: Checked<UvToolItem>)
    ensures r.Success? <==> ValidUvToolItem(v)
    ensures r.Success? ==> r.value == UvToolItem(
      v.fields["name"].s, OptValue(v.fields, "desc"), FlagValue(v.fields, "install", true))
  {
    if !v.Object? then Failure(NotAMapping)
    else
      var m := v.fields;
      var name :- RequiredStr(m, "name");
      var desc :- OptionalStr(m, "desc");
      var install :- Flag(m, "install", true);
      Success(UvToolItem(name, desc, install))
  }

  datatype WebItem = WebItem(name: string, desc: Option<string>, url: string, iconUrl: Option<string>, install: bool)

  predicate ValidWebItem(v: Value) {
    v.Object? && IsStrAt(v.fields, "name") && OptionalStrOk(v.fields, "desc") && IsStrAt(v.fields, "url") &&
    OptionalStrOk(v.fields, "icon_url") && FlagOk(v.fields, "install")
  }

  /** A web application: `name` and `url` required, `install` defaults to true. */
  function ParseWebItem(v: Value): (r: Checked<WebItem>)
    ensures r.Success? <==> ValidWebItem(v)
    ensures r.Success? ==> r.value == WebItem(
      v.fields["name"].s, OptValue(v.fields, "desc"), v.fields["url"].s, OptValue(v.fields, "icon_url"),
      FlagValue(v.fields, "install", true))
  {
    if !v.Object? then Failure(NotAMapping)
    else
      var m := v.fields;
      var name :- RequiredStr(m, "name");
      var desc :- OptionalStr(m, "desc");
      var url :- RequiredStr(m, "url");
      var iconUrl :- OptionalStr(m, "icon_url");
      var install :- Flag(m, "install", true);
      Success(WebItem(name, desc, url, iconUrl, install))
  }

  // ---------------------------------------------------------------------------
  // Lists and sections

  /** A `list[...]` field: absent, or a list every element of which is valid. */
  predicate ListOf(ok: Value -> bool, m: map<string, Value>, k: string) {
    k !in m || (m[k].List? && forall i :: 0 <= i < |m[k].items| ==> ok(m[k].items[i]))
  }

  /** A nested record field: absent, or a mapping that is a valid record. */
  predicate SectionOf(ok: map<string, Value> -> bool, m: map<string, Value>, k: string) {
    k !in m || (m[k].Object? && ok(m[k].fields))
  }

  /** `xs` is what the list field `k` reads as: empty when absent, one record per element otherwise. */
  ghost predicate ReadsAsList<T>(parse: Value -> Checked<T>, m: map<string, Value>, k: string, xs: seq<T>) {
    && (k !in m ==> xs == [])
    && (k in m ==>
          && m[k].List?
          && |xs| == |m[k].items|
          && forall i :: 0 <= i < |m[k].items| ==> parse(m[k].items[i]) == Success(xs[i]))
  }

  /** `x` is what the record field `k` reads as: the default when absent, the parsed record otherwise. */
  ghost predicate ReadsAsSection<T>(parse: map<string, Value> -> Checked<T>, m: map<string, Value>, k: string, default: T, x: T) {
    (k !in m ==> x == default) &&
    (k in m ==> m[k].Object? && parse(m[k].fields) == Success(x))
  }

  /** Every element of a list, in order; the first element that fails fails the list. */
  function ParseEach<T>(parse: Value -> Checked<T>, xs: seq<Value>, from: nat): (r: Checked<seq<T>>)
    ensures r.Success? <==> forall i :: 0 <= i < |xs| ==> parse(xs[i]).Success?
    ensures r.Success? ==> |r.value| == |xs| && forall i :: 0 <= i < |xs| ==> parse(xs[i]) == Success(r.value[i])
    decreases |xs|
  {
    if xs == [] then Success([])
    else
      var head := parse(xs[0]);
      if head.Failure? then Failure(Within(Index(from), head.error))
      else
        var tail :- ParseEach(parse, xs[1..], from + 1);
        Success([head.value] + tail)
  }

  /** A `list[...]` field defaulting to the empty list. */
  function ListField<T>(parse: Value -> Checked<T>, m: map<string, Value>, k: string): (r: Checked<seq<T>>)
    ensures r.Success? <==> k !in m || (m[k].List? && forall i :: 0 <= i < |m[k].items| ==> parse(m[k].items[i]).Success?)
    ensures r.Success? ==> ReadsAsList(parse, m, k, r.value)
  {
    if k !in m then Success([])
    else if m[k].List? then Nest(k, ParseEach(parse, m[k].items, 0))
    else Failure(Violation([Key(k)], WrongType))
  }

  /** A nested record field defaulting to its record's defaults. */
  function SectionField<T>(parse: map<string, Value> -> Checked<T>, m: map<string, Value>, k: string, default: T): (r: Checked<T>)
    ensures r.Success? <==> k !in m || (m[k].Object? && parse(m[k].fields).Success?)
    ensures r.Success? ==> ReadsAsSection(parse, m, k, default, r.value)
  {
    if k !in m then Success(default)
    else if m[k].Object? then Nest(k, parse(m[k].fields))
    else Failure(Violation([Key(k)], WrongType))
  }

  predicate IsStr(v: Value) {
    v.Str?
  }

  /** An element of a `list[str]`. */
  function AsStr(v: Value): (r: Checked<string>)
    ensures r.Success? <==> IsStr(v)
    ensures r.Success? ==> r.value == v.s
  {
    if v.Str? then Success(v.s) else Failure(Violation([], WrongType))
  }

  // ---------------------------------------------------------------------------
  // Section records

  datatype DefaultsConfig = DefaultsConfig(
    install: bool, ghostty: bool, yubikeySetup: bool, theme: string,
    runFwUpdate: bool, runRecoveryUpgrade: bool)

  const DefaultDefaults := DefaultsConfig(true, true, false, "nord", true, false)

  predicate ValidDefaults(m: map<string, Value>) {
    FlagOk(m, "install") && FlagOk(m, "ghostty") && FlagOk(m, "yubikey_setup") && TextOk(m, "theme") &&
    FlagOk(m, "run_fw_update") && FlagOk(m, "run_recovery_upgrade")
  }

  /** The `defaults` block; every field has a default, `theme` is "nord". */
  function ParseDefaults(m: map<string, Value>): (r: Checked<DefaultsConfig>)
    ensures r.Success? <==> ValidDefaults(m)
    ensures r.Success? ==> r.value == DefaultsConfig(
      FlagValue(m, "install", true), FlagValue(m, "ghostty", true), FlagValue(m, "yubikey_setup", false),
      TextValue(m, "theme", "nord"), FlagValue(m, "run_fw_update", true), FlagValue(m, "run_recovery_upgrade", false))
    ensures m == map[] ==> r == Success(DefaultDefaults)
  {
    var install :- Flag(m, "install", true);
    var ghostty :- Flag(m, "ghostty", true);
    var yubikeySetup :- Flag(m, "yubikey_setup", false);
    var theme :- Text(m, "theme", "nord");
    var runFwUpdate :- Flag(m, "run_fw_update", true);
    var runRecoveryUpgrade :- Flag(m, "run_recovery_upgrade", false);
    Success(DefaultsConfig(install, ghostty, yubikeySetup, theme, runFwUpdate, runRecoveryUpgrade))
  }

  datatype AptConfig = AptConfig(core: seq<PackageItem>, yubikey: seq<PackageItem>, gui: seq<PackageItem>, terminal: seq<PackageItem>)

  const EmptyApt := AptConfig([], [], [], [])

  predicate ValidApt(m: map<string, Value>) {
    ListOf(ValidPackageItem, m, "core") && ListOf(ValidPackageItem, m, "yubikey") &&
    ListOf(ValidPackageItem, m, "gui") && ListOf(ValidPackageItem, m, "terminal")
  }

  /** The `apt` block: four package lists, each defaulting to empty. */
  function ParseApt(m: map<string, Value>): (r: Checked<AptConfig>)
    ensures r.Success? <==> ValidApt(m)
    ensures r.Success? ==>
      ReadsAsList(ParsePackageItem, m, "core", r.value.core) && ReadsAsList(ParsePackageItem, m, "yubikey", r.value.yubikey) &&
      ReadsAsList(ParsePackageItem, m, "gui", r.value.gui) && ReadsAsList(ParsePackageItem, m, "terminal", r.value.terminal)
    ensures m == map[] ==> r == Success(EmptyApt)
  {
    var core :- ListField(ParsePackageItem, m, "core");
    var yubikey :- ListField(ParsePackageItem, m, "yubikey");
    var gui :- ListField(ParsePackageItem, m, "gui");
    var terminal :- ListField(ParsePackageItem, m, "terminal");
    Success(AptConfig(core, yubikey, gui, terminal))
  }

  datatype FlatpakConfig = FlatpakConfig(utility: seq<FlatpakItem>)

  predicate ValidFlatpak(m: map<string, Value>) {
    ListOf(ValidFlatpakItem, m, "utility")
  }

  /** The `flatpak` block: one application list, defaulting to empty. */
  function ParseFlatpak(m: map<string, Value>): (r: Checked<FlatpakConfig>)
    ensures r.Success? <==> ValidFlatpak(m)
    ensures r.Success? ==> ReadsAsList(ParseFlatpakItem, m, "utility", r.value.utility)
  {
    var utility :- ListField(ParseFlatpakItem, m, "utility");
    Success(FlatpakConfig(utility))
  }

  datatype FontsConfig = FontsConfig(nerd: seq<FontItem>)

  predicate ValidFonts(m: map<string, Value>) {
    ListOf(ValidFontItem, m, "nerd")
  }

  /** The `fonts` block: one font list, defaulting to empty. */
  function ParseFonts(m: map<string, Value>): (r: Checked<FontsConfig>)
    ensures r.Success? <==> ValidFonts(m)
    ensures r.Success? ==> ReadsAsList(ParseFontItem, m, "nerd", r.value.nerd)
  {
    var nerd :- ListField(ParseFontItem, m, "nerd");
    Success(FontsConfig(nerd))
  }

  datatype WebConfig = WebConfig(apps: seq<WebItem>)

  predicate ValidWeb(m: map<string, Value>) {
    ListOf(ValidWebItem, m, "apps")
  }

  /** The `web` block: one web-app list, defaulting to empty. */
  function ParseWeb(m: map<string, Value>): (r: Checked<WebConfig>)
    ensures r.Success? <==> ValidWeb(m)
    ensures r.Success? ==> ReadsAsList(ParseWebItem, m, "apps", r.value.apps)
  {
    var apps :- ListField(ParseWebItem, m, "apps");
    Success(WebConfig(apps))
  }

  datatype InstallersConfig = InstallersConfig(runtimes: seq<InstallerItem>, aiTools: seq<InstallerItem>, security: seq<InstallerItem>)

  const EmptyInstallers := InstallersConfig([], [], [])

  predicate ValidInstallers(m: map<string, Value>) {
    ListOf(ValidInstallerItem, m, "runtimes") && ListOf(ValidInstallerItem, m, "ai_tools") &&
    ListOf(ValidInstallerItem, m, "security")
  }

  /** The `installers` block: three installer lists, each defaulting to empty. */
  function ParseInstallers(m: map<string, Value>): (r: Checked<InstallersConfig>)
    ensures r.Success? <==> ValidInstallers(m)
    ensures r.Success? ==>
      ReadsAsList(ParseInstallerItem, m, "runtimes", r.value.runtimes) &&
      ReadsAsList(ParseInstallerItem, m, "ai_tools", r.value.aiTools) &&
      ReadsAsList(ParseInstallerItem, m, "security", r.value.security)
    ensures m == map[] ==> r == Success(EmptyInstallers)
  {
    var runtimes :- ListField(ParseInstallerItem, m, "runtimes");
    var aiTools :- ListField(ParseInstallerItem, m, "ai_tools");
    var security :- ListField(ParseInstallerItem, m, "security");
    Success(InstallersConfig(runtimes, aiTools, security))
  }

  datatype ThemesConfig = ThemesConfig(default: string, available: seq<string>, paths: map<string, string>)

  const DefaultThemes := ThemesConfig("nord", [], map[])

  /** A `dict[str, str]` field: absent, or a mapping whose every value is a string. */
  predicate StrMapOk(m: map<string, Value>, k: string) {
    k !in m || (m[k].Object? && forall key :: key in m[k].fields ==> m[k].fields[key].Str?)
  }

  /** A `dict[str, str]` field defaulting to the empty mapping. */
  function StrMapField(m: map<string, Value>, k: string): (r: Checked<map<string, string>>)
    ensures r.Success? <==> StrMapOk(m, k)
    ensures r.Success? ==> r.value.Keys == if k in m then m[k].fields.Keys else {}
    ensures r.Success? && k in m ==> forall key :: key in r.value ==> r.value[key] == m[k].fields[key].s
  {
    if k !in m then Success(map[])
    else if m[k].Object? && forall key :: key in m[k].fields ==> m[k].fields[key].Str? then
      Success(map key | key in m[k].fields :: m[k].fields[key].s)
    else Failure(Violation([Key(k)], WrongType))
  }

  predicate ValidThemes(m: map<string, Value>) {
    TextOk(m, "default") && ListOf(IsStr, m, "available") && StrMapOk(m, "paths")
  }

  /** The `themes` block: `default` is "nord" unless given, `available` a string list, `paths` a string mapping. */
  function ParseThemes(m: map<string, Value>): (r: Checked<ThemesConfig>)
    ensures r.Success? <==> ValidThemes(m)
    ensures r.Success? ==> r.value.default == TextValue(m, "default", "nord")
    ensures r.Success? ==> ReadsAsList(AsStr, m, "available", r.value.available)
    ensures r.Success? ==> r.value.paths.Keys == (if "paths" in m then m["paths"].fields.Keys else {})
    ensures r.Success? && "paths" in m ==> forall key :: key in r.value.paths ==> r.value.paths[key] == m["paths"].fields[key].s
    ensures m == map[] ==> r == Success(DefaultThemes)
  {
    var default :- Text(m, "default", "nord");
    var available :- ListField(AsStr, m, "available");
    var paths :- StrMapField(m, "paths");
    Success(ThemesConfig(default, available, paths))
  }

  datatype HardwareConfig = HardwareConfig(emitNotes: bool, oemKernel: Option<string>, warnOnMix: bool, notes: Option<string>)

  predicate ValidHardware(m: map<string, Value>) {
    FlagOk(m, "emit_notes") && OptionalStrOk(m, "oem_kernel") && FlagOk(m, "warn_on_mix") && OptionalStrOk(m, "notes")
  }

  /** The hardware block: both flags default to true, both notes to None. */
  function ParseHardware(m: map<string, Value>): (r: Checked<HardwareConfig>)
    ensures r.Success? <==> ValidHardware(m)
    ensures r.Success? ==> r.value == HardwareConfig(
      FlagValue(m, "emit_notes", true), OptValue(m, "oem_kernel"), FlagValue(m, "warn_on_mix", true), OptValue(m, "notes"))
    ensures m == map[] ==> r == Success(HardwareConfig(true, None, true, None))
  {
    var emitNotes :- Flag(m, "emit_notes", true);
    var oemKernel :- OptionalStr(m, "oem_kernel");
    var warnOnMix :- Flag(m, "warn_on_mix", true);
    var notes :- OptionalStr(m, "notes");
    Success(HardwareConfig(emitNotes, oemKernel, warnOnMix, notes))
  }

  /** `HardwareConfig | None = None`: absent or null, or a valid hardware block. */
  predicate HardwareOk(m: map<string, Value>, k: string) {
    k !in m || m[k].Null? || (m[k].Object? && ValidHardware(m[k].fields))
  }

  function OptionalHardware(m: map<string, Value>, k: string): (r: Checked<Option<HardwareConfig>>)
    ensures r.Success? <==> HardwareOk(m, k)
    ensures (k !in m || m[k].Null?) ==> r == Success(None)
    ensures r.Success? && k in m && m[k].Object? ==> r.value.Some? && ParseHardware(m[k].fields) == Success(r.value.value)
  {
    if k !in m || m[k].Null? then Success(None)
    else if m[k].Object? then
      var hw :- Nest(k, ParseHardware(m[k].fields));
      Success(Some(hw))
    else Failure(Violation([Key(k)], WrongType))
  }

  /** `list[Any]`: any list, defaulting to the empty one. */
  function AnyListField(m: map<string, Value>, k: string): (r: Checked<seq<Value>>)
    ensures r.Success? <==> k !in m || m[k].List?
    ensures r.Success? ==> r.value == if k in m then m[k].items else []
  {
    if k !in m then Success([])
    else if m[k].List? then Success(m[k].items)
    else Failure(Violation([Key(k)], WrongType))
  }

  // ---------------------------------------------------------------------------
  // Shorthand expansion before validation

  /** A bare string becomes `{"name": s}`; anything else is left alone. */
  function Expand(item: Value): Value {
    if item.Str? then NameOnly(item) else item
  }

  /** What `normalize_string_items` returns for the raw value of `npm` or `uv_tools`. */
  function Normalized(v: Value): Value {
    if v.List? then List(MapSeq(Expand, v.items)) else v
  }

  /** `normalize_string_items` as the source runs it: a loop appending to a fresh list. */
  method NormalizeStringItems(v: Value) returns (r: Value)
    ensures !v.List? ==> r == v
    ensures v.List? ==> r.List? && |r.items| == |v.items|
    ensures v.List? ==> forall i :: 0 <= i < |v.items| ==>
      (v.items[i].Str? ==> r.items[i] == NameOnly(v.items[i])) &&
      (!v.items[i].Str? ==> r.items[i] == v.items[i])
    ensures r == Normalized(v)
  {
    if !v.List? {
      return v;
    }
    var result: seq<Value> := [];
    for i := 0 to |v.items|
      invariant |result| == i
      invariant forall j :: 0 <= j < i ==> result[j] == Expand(v.items[j])
    {
      var item := v.items[i];
      if item.Str? {
        result := result + [NameOnly(item)];
      } else {
        result := result + [item];
      }
    }
    r := List(result);
  }

  /** After expansion no bare string is left in the list. */
  lemma NoStringRemains(v: Value)
    requires v.List?
    ensures forall i :: 0 <= i < |Normalized(v).items| ==> !Normalized(v).items[i].Str?
  {
  }

  /** Expanding twice is expanding once. */
  lemma NormalizeIdempotent(v: Value)
    ensures Normalized(Normalized(v)) == Normalized(v)
  {
    if v.List? {
      var once := Normalized(v).items;
      assert MapSeq(Expand, once) == once;
    }
  }

  /** The mapping with the before-validator applied to field `k`, when present. */
  function NormalizeAt(m: map<string, Value>, k: string): (m': map<string, Value>)
    ensures m'.Keys == m.Keys
  {
    if k in m then m[k := Normalized(m[k])] else m
  }

  // ---------------------------------------------------------------------------
  // The root record

  datatype CosmikaseConfig = CosmikaseConfig(
    defaults: DefaultsConfig, apt: AptConfig, flatpak: FlatpakConfig, fonts: FontsConfig,
    web: WebConfig, installers: InstallersConfig, npm: seq<NpmItem>, uvTools: seq<UvToolItem>,
    themes: ThemesConfig, scripts: seq<Value>, hpZbookUltra: Option<HardwareConfig>)

  /** The configuration an empty document validates to. */
  const DefaultConfig := CosmikaseConfig(
    DefaultDefaults, EmptyApt, FlatpakConfig([]), FontsConfig([]), WebConfig([]), EmptyInstallers,
    [], [], DefaultThemes, [], None)

  /** The before-validators: `npm` and `uv_tools` expanded where present. */
  function Prepare(m: map<string, Value>): (m': map<string, Value>)
    ensures m'.Keys == m.Keys
    ensures forall k :: k in m && k != "npm" && k != "uv_tools" ==> m'[k] == m[k]
    ensures "npm" in m ==> m'["npm"] == Normalized(m["npm"])
    ensures "uv_tools" in m ==> m'["uv_tools"] == Normalized(m["uv_tools"])
  {
    NormalizeAt(NormalizeAt(m, "npm"), "uv_tools")
  }

  /** The records of the first six sections, in field order. */
  datatype Sections = Sections(
    defaults: DefaultsConfig, apt: AptConfig, flatpak: FlatpakConfig, fonts: FontsConfig,
    web: WebConfig, installers: InstallersConfig)

  predicate ValidSections(m: map<string, Value>) {
    SectionOf(ValidDefaults, m, "defaults") && SectionOf(ValidApt, m, "apt") &&
    SectionOf(ValidFlatpak, m, "flatpak") && SectionOf(ValidFonts, m, "fonts") &&
    SectionOf(ValidWeb, m, "web") && SectionOf(ValidInstallers, m, "installers")
  }

  /** `defaults` to `installers` of the root record. */
  function ParseSections(m: map<string, Value>): (r: Checked<Sections>)
    ensures r.Success? <==> ValidSections(m)
    ensures r.Success? ==>
      ReadsAsSection(ParseDefaults, m, "defaults", DefaultDefaults, r.value.defaults) &&
      ReadsAsSection(ParseApt, m, "apt", EmptyApt, r.value.apt) &&
      ReadsAsSection(ParseFlatpak, m, "flatpak", FlatpakConfig([]), r.value.flatpak) &&
      ReadsAsSection(ParseFonts, m, "fonts", FontsConfig([]), r.value.fonts) &&
      ReadsAsSection(ParseWeb, m, "web", WebConfig([]), r.value.web) &&
      ReadsAsSection(ParseInstallers, m, "installers", EmptyInstallers, r.value.installers)
  {
    var defaults :- SectionField(ParseDefaults, m, "defaults", DefaultDefaults);
    var apt :- SectionField(ParseApt, m, "apt", EmptyApt);
    var flatpak :- SectionField(ParseFlatpak, m, "flatpak", FlatpakConfig([]));
    var fonts :- SectionField(ParseFonts, m, "fonts", FontsConfig([]));
    var web :- SectionField(ParseWeb, m, "web", WebConfig([]));
    var installers :- SectionField(ParseInstallers, m, "installers", EmptyInstallers);
    Success(Sections(defaults, apt, flatpak, fonts, web, installers))
  }

  /** The records of the last five fields, in field order. */
  datatype Rest = Rest(
    npm: seq<NpmItem>, uvTools: seq<UvToolItem>, themes: ThemesConfig, scripts: seq<Value>,
    hpZbookUltra: Option<HardwareConfig>)

  predicate ValidRest(m: map<string, Value>) {
    ListOf(ValidNpmItem, m, "npm") && ListOf(ValidUvToolItem, m, "uv_tools") &&
    SectionOf(ValidThemes, m, "themes") && (("scripts" !in m) || m["scripts"].List?) &&
    HardwareOk(m, "hp_zbook_ultra")
  }

  /** `npm` to `hp_zbook_ultra` of the root record. */
  function ParseRest(m: map<string, Value>): (r: Checked<Rest>)
    ensures r.Success? <==> ValidRest(m)
    ensures r.Success? ==>
      ReadsAsList(ParseNpmItem, m, "npm", r.value.npm) &&
      ReadsAsList(ParseUvToolItem, m, "uv_tools", r.value.uvTools) &&
      ReadsAsSection(ParseThemes, m, "themes", DefaultThemes, r.value.themes) &&
      r.value.scripts == (if "scripts" in m then m["scripts"].items else [])
    ensures r.Success? && ("hp_zbook_ultra" !in m || m["hp_zbook_ultra"].Null?) ==> r.value.hpZbookUltra.None?
    ensures r.Success? && "hp_zbook_ultra" in m && m["hp_zbook_ultra"].Object? ==>
      r.value.hpZbookUltra.Some? && ParseHardware(m["hp_zbook_ultra"].fields) == Success(r.value.hpZbookUltra.value)
  {
    var npm :- ListField(ParseNpmItem, m, "npm");
    var uvTools :- ListField(ParseUvToolItem, m, "uv_tools");
    var themes :- SectionField(ParseThemes, m, "themes", DefaultThemes);
    var scripts :- AnyListField(m, "scripts");
    var hp :- OptionalHardware(m, "hp_zbook_ultra");
    Success(Rest(npm, uvTools, themes, scripts, hp))
  }

  /**
   * The rules of the root record, on the prepared mapping: every field absent
   * or valid. The root is checked in two halves, `ValidSections` for the six
   * nested blocks and `ValidRest` for the other five fields, only so that each
   * proof stays small; `Sections` and `Rest` carry the two halves' records.
   */
  predicate ValidFields(m: map<string, Value>) {
    ValidSections(m) && ValidRest(m)
  }

  /** A valid document: a mapping whose fields, once expanded, are valid. */
  predicate ValidDocument(data: Value) {
    data.Object? && ValidFields(Prepare(data.fields))
  }

  /** The field validation of the root record, on the prepared mapping. */
  function ParseFields(m: map<string, Value>): (r: Checked<CosmikaseConfig>)
    ensures r.Success? <==> ValidFields(m)
    ensures r.Success? ==>
      ReadsAsSection(ParseDefaults, m, "defaults", DefaultDefaults, r.value.defaults) &&
      ReadsAsSection(ParseApt, m, "apt", EmptyApt, r.value.apt) &&
      ReadsAsSection(ParseFlatpak, m, "flatpak", FlatpakConfig([]), r.value.flatpak) &&
      ReadsAsSection(ParseFonts, m, "fonts", FontsConfig([]), r.value.fonts) &&
      ReadsAsSection(ParseWeb, m, "web", WebConfig([]), r.value.web) &&
      ReadsAsSection(ParseInstallers, m, "installers", EmptyInstallers, r.value.installers)
    ensures r.Success? ==>
      ReadsAsList(ParseNpmItem, m, "npm", r.value.npm) &&
      ReadsAsList(ParseUvToolItem, m, "uv_tools", r.value.uvTools) &&
      ReadsAsSection(ParseThemes, m, "themes", DefaultThemes, r.value.themes) &&
      r.value.scripts == (if "scripts" in m then m["scripts"].items else [])
    ensures r.Success? && ("hp_zbook_ultra" !in m || m["hp_zbook_ultra"].Null?) ==> r.value.hpZbookUltra.None?
    ensures r.Success? && "hp_zbook_ultra" in m && m["hp_zbook_ultra"].Object? ==>
      r.value.hpZbookUltra.Some? && ParseHardware(m["hp_zbook_ultra"].fields) == Success(r.value.hpZbookUltra.value)
  {
    var head :- ParseSections(m);
    var rest :- ParseRest(m);
    Success(CosmikaseConfig(
      head.defaults, head.apt, head.flatpak, head.fonts, head.web, head.installers,
      rest.npm, rest.uvTools, rest.themes, rest.scripts, rest.hpZbookUltra))
  }

  /**
   * `CosmikaseConfig.model_validate(data)`: valid exactly on valid documents,
   * every section optional with its default, `npm` and `uv_tools` expanded
   * before their items are checked.
   */
  function ParseConfig(data: Value): (r: Checked<CosmikaseConfig>)
    ensures r.Success? <==> ValidDocument(data)
    // a present field reads as the root record reads it once `npm` and `uv_tools` are expanded
    ensures data.Object? ==> r == ParseFields(Prepare(data.fields))
    ensures r.Success? && "defaults" !in data.fields ==> r.value.defaults == DefaultDefaults
    ensures r.Success? && "apt" !in data.fields ==> r.value.apt == EmptyApt
    ensures r.Success? && "flatpak" !in data.fields ==> r.value.flatpak == FlatpakConfig([])
    ensures r.Success? && "fonts" !in data.fields ==> r.value.fonts == FontsConfig([])
    ensures r.Success? && "web" !in data.fields ==> r.value.web == WebConfig([])
    ensures r.Success? && "installers" !in data.fields ==> r.value.installers == EmptyInstallers
    ensures r.Success? && "npm" !in data.fields ==> r.value.npm == []
    ensures r.Success? && "uv_tools" !in data.fields ==> r.value.uvTools == []
    ensures r.Success? && "themes" !in data.fields ==> r.value.themes == DefaultThemes
    ensures r.Success? && "scripts" !in data.fields ==> r.value.scripts == []
    ensures r.Success? && "hp_zbook_ultra" !in data.fields ==> r.value.hpZbookUltra.None?
  {
    if !data.Object? then Failure(NotAMapping)
    else ParseFields(Prepare(data.fields))
  }

  /** Why a configuration was refused: it could not be read and parsed, or it broke a rule. */
  datatype Refusal = Unreadable(reason: string) | Invalid(violation: Violation)

  /**
   * `validate_config`: `(True, [])` when the document loads and validates,
   * otherwise `(False, [one refusal])`; no configuration is handed out either way.
   * `loaded` is the outcome of reading and YAML-parsing the file.
   */
  function ValidateConfig(loaded: Result<Value, string>): (r: (bool, seq<Refusal>))
    ensures r.0 <==> r.1 == []
    ensures !r.0 ==> |r.1| == 1
    ensures r.0 <==> loaded.Success? && ValidDocument(loaded.value)
    ensures loaded.Failure? ==> r.1 == [Unreadable(loaded.error)]
    ensures loaded.Success? && ParseConfig(loaded.value).Failure? ==> r.1 == [Invalid(ParseConfig(loaded.value).error)]
  {
    match loaded
    case Failure(reason) => (false, [Unreadable(reason)])
    case Success(data) =>
      match ParseConfig(data)
      case Success(_) => (true, [])
      case Failure(v) => (false, [Invalid(v)])
  }

  // ---------------------------------------------------------------------------
  // Properties

  /** An empty document is valid and yields every default. */
  lemma EmptyDocumentGivesDefaults()
    ensures ParseConfig(Object(map[])) == Success(DefaultConfig)
    ensures DefaultConfig.defaults.theme == "nord" && DefaultConfig.hpZbookUltra.None?
    ensures ValidateConfig(Success(Object(map[]))) == (true, [])
  {
  }

  /** An empty file loads as null, which is not a mapping: one refusal. */
  lemma NullDocumentRejected()
    ensures ValidateConfig(Success(Null)) == (false, [Invalid(NotAMapping)])
  {
  }

  /** Preparing a mapping whose `npm` or `uv_tools` is already expanded changes nothing further. */
  lemma PrepareAbsorbsExpansion(m: map<string, Value>, k: string, raw: Value)
    requires k == "npm" || k == "uv_tools"
    ensures Prepare(m[k := raw]) == Prepare(m[k := Normalized(raw)])
  {
    NormalizeIdempotent(raw);
    var a, b := Prepare(m[k := raw]), Prepare(m[k := Normalized(raw)]);
    assert a.Keys == b.Keys;
    forall key | key in a
      ensures a[key] == b[key]
    {
    }
  }

  /** Bare strings in `npm` or `uv_tools` validate exactly like the `{"name": s}` mappings they stand for. */
  lemma BareStringsAsMappings(m: map<string, Value>, k: string, raw: Value)
    requires k == "npm" || k == "uv_tools"
    ensures ParseConfig(Object(m[k := raw])) == ParseConfig(Object(m[k := Normalized(raw)]))
  {
    PrepareAbsorbsExpansion(m, k, raw);
  }

  /** A bare string in `npm` validates to an npm item of that name with every default. */
  lemma BareNpmString(data: Value, i: nat)
    requires data.Object? && "npm" in data.fields
    requires data.fields["npm"].List? && i < |data.fields["npm"].items| && data.fields["npm"].items[i].Str?
    ensures ParseConfig(data).Success? ==>
      i < |ParseConfig(data).value.npm| &&
      ParseConfig(data).value.npm[i] == NpmItem(data.fields["npm"].items[i].s, None, "latest", true)
  {
    var m := Prepare(data.fields);
    var r := ParseFields(m);
    assert ParseConfig(data) == r;
    if r.Success? {
      assert ReadsAsList(ParseNpmItem, m, "npm", r.value.npm);
      var item := m["npm"].items[i];
      assert item == NameOnly(data.fields["npm"].items[i]);
      assert ParseNpmItem(item) == Success(r.value.npm[i]);
    }
  }

  /** An installer with just a name and a method validates exactly when the method is one of the ten. */
  lemma MinimalInstaller(name: string, meth: string)
    ensures ParseInstallerItem(Object(map["name" := Str(name), "method" := Str(meth)])).Success? <==> meth in MethodNames
  {
  }

  /** A method outside the enumeration is refused with that literal named. */
  lemma UnknownMethodRefused(m: map<string, Value>)
    requires IsStrAt(m, "name") && OptionalStrOk(m, "desc") && IsStrAt(m, "method")
    requires m["method"].s !in MethodNames
    ensures ParseInstallerItem(Object(m)) == Failure(Violation([Key("method")], UnknownMethod(m["method"].s)))
  {
  }

  /**
   * All or nothing: one installer under `installers.runtimes` with a method
   * outside the ten makes the whole file invalid, with exactly one refusal.
   */
  lemma UnknownRuntimeMethodFailsFile(data: Value, i: nat)
    requires data.Object? && "installers" in data.fields && data.fields["installers"].Object?
    requires "runtimes" in data.fields["installers"].fields
    requires data.fields["installers"].fields["runtimes"].List?
    requires i < |data.fields["installers"].fields["runtimes"].items|
    requires data.fields["installers"].fields["runtimes"].items[i].Object?
    requires IsStrAt(data.fields["installers"].fields["runtimes"].items[i].fields, "method")
    requires data.fields["installers"].fields["runtimes"].items[i].fields["method"].s !in MethodNames
    ensures ValidateConfig(Success(data)).0 == false && |ValidateConfig(Success(data)).1| == 1
  {
    var m := Prepare(data.fields);
    assert m["installers"] == data.fields["installers"];
    assert !ValidInstallerItem(data.fields["installers"].fields["runtimes"].items[i]);
    assert !ValidInstallers(data.fields["installers"].fields);
  }

  /**
   * All or nothing: one package under `apt.core` without a `name` makes the
   * whole file invalid, with exactly one refusal.
   */
  lemma NamelessPackageFailsFile(data: Value, i: nat)
    requires data.Object? && "apt" in data.fields && data.fields["apt"].Object?
    requires "core" in data.fields["apt"].fields && data.fields["apt"].fields["core"].List?
    requires i < |data.fields["apt"].fields["core"].items|
    requires data.fields["apt"].fields["core"].items[i].Object?
    requires "name" !in data.fields["apt"].fields["core"].items[i].fields
    ensures ValidateConfig(Success(data)).0 == false && |ValidateConfig(Success(data)).1| == 1
  {
    var m := Prepare(data.fields);
    assert m["apt"] == data.fields["apt"];
    assert !ValidPackageItem(data.fields["apt"].fields["core"].items[i]);
    assert !ValidApt(data.fields["apt"].fields);
  }
}
