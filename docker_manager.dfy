/** The template-to-container translator and installer of
    dockyard_app/app/docker_manager.py: port, volume and environment parsing,
    container name and restart policy derivation, and the fixed order of early
    exits in `install_container_from_template`, run against an abstract
    container runtime. */
module DockerManager {
  import opened Wrappers
  import opened PyText
  import opened PyJson
  import opened Folds

  // ================================================================ ports

  /** Port bindings as the Docker SDK takes them: "container/proto" maps to a
      host port, or to None for a host port the runtime picks. */
  type PortMap = map<string, Option<int>>

  /** What one entry of a `ports` list contributes: a key and host port, or None
      when the entry is skipped (a non-string, a wrong number of ':' or '/',
      or a host part `int()` rejects). */
  function ParsePortEntry(entry: Json): Option<(string, Option<int>)> {
    if !entry.JStr? then None
    else
      var parts := Split(entry.s, ':');
      if |parts| == 2 then
        var cp := Split(parts[1], '/');
        if |cp| == 2 && PyInt(parts[0]).Some? then Some((cp[0] + "/" + cp[1], PyInt(parts[0]))) else None
      else if |parts| == 1 then
        var cp := Split(parts[0], '/');
        if |cp| == 2 then Some((cp[0] + "/" + cp[1], None)) else None
      else None
  }

  /** A kept entry is one of the two accepted shapes, and its key is the
      container part exactly as written. */
  lemma PortEntryShape(entry: Json)
    ensures var r := ParsePortEntry(entry);
            && (r.Some? ==> entry.JStr? && ':' !in r.value.0 && CountChar(r.value.0, '/') == 1)
            && (r.Some? && r.value.1.None? ==> entry.s == r.value.0)
            && (r.Some? && r.value.1.Some? ==>
                  exists h :: entry.s == h + ":" + r.value.0 && ':' !in h && PyInt(h) == r.value.1)
  {
    if entry.JStr? {
      var parts := Split(entry.s, ':');
      SplitJoin(entry.s, ':');
      SplitPiecesClean(entry.s, ':');
      if |parts| == 2 {
        var cp := Split(parts[1], '/');
        SplitJoin(parts[1], '/');
        SplitCount(parts[1], '/');
        if |cp| == 2 {
          assert Join(parts, ':') == parts[0] + ":" + parts[1];
          assert Join(cp, '/') == cp[0] + "/" + cp[1];
        }
      } else if |parts| == 1 {
        var cp := Split(parts[0], '/');
        SplitJoin(parts[0], '/');
        SplitCount(parts[0], '/');
        if |cp| == 2 {
          assert Join(cp, '/') == cp[0] + "/" + cp[1];
        }
      }
    }
  }

  lemma SplitTwoPieces(a: string, b: string, c: char)
    requires c !in a && c !in b
    ensures Split(a + [c] + b, c) == [a, b]
  {
    SplitAfterPiece(a, b, c);
    SplitNoSeparator(b, c);
  }

  /** "host:container/proto": kept, keyed by the container part as written,
      exactly when that part has one '/' and `int(host)` succeeds. */
  lemma HostPortEntry(h: string, c: string)
    requires ':' !in h && ':' !in c
    ensures ParsePortEntry(JStr(h + ":" + c))
            == if CountChar(c, '/') == 1 && PyInt(h).Some? then Some((c, PyInt(h))) else None
  {
    SplitTwoPieces(h, c, ':');
    SplitCount(c, '/');
    SplitJoin(c, '/');
    var cp := Split(c, '/');
    if |cp| == 2 { assert Join(cp, '/') == cp[0] + "/" + cp[1]; }
  }

  /** A host part that starts with one of the ASCII separators U+001C to U+001F
      makes `int()` raise ValueError, so the entry is skipped. */
  lemma SeparatorHostSkipped(x: char, h: string, c: string)
    requires '\U{1C}' <= x <= '\U{1F}'
    requires ':' !in h && ':' !in c
    ensures ParsePortEntry(JStr([x] + h + ":" + c)) == None
  {
    PyIntRefusesSeparator(x, h);
    HostPortEntry([x] + h, c);
  }

  /** "container/proto": kept with no host port exactly when it has one '/'. */
  lemma ContainerPortEntry(c: string)
    requires ':' !in c
    ensures ParsePortEntry(JStr(c)) == if CountChar(c, '/') == 1 then Some((c, None)) else None
  {
    SplitNoSeparator(c, ':');
    SplitCount(c, '/');
    SplitJoin(c, '/');
    var cp := Split(c, '/');
    if |cp| == 2 { assert Join(cp, '/') == cp[0] + "/" + cp[1]; }
  }

  lemma {:induction false} CountCharAppend(a: string, b: string, c: char)
    ensures CountChar(a + b, c) == CountChar(a, c) + CountChar(b, c)
  {
    if a != [] {
      assert (a + b)[0] == a[0] && (a + b)[1..] == a[1..] + b;
      CountCharAppend(a[1..], b, c);
    } else {
      assert a + b == b;
    }
  }

  lemma {:induction false} CountCharAbsent(a: string, c: char)
    requires c !in a
    ensures CountChar(a, c) == 0
  {
    if a != [] { CountCharAbsent(a[1..], c); }
  }

  /** An entry with more than one ':' is always skipped. */
  lemma ManyColonsSkipped(s: string)
    requires CountChar(s, ':') > 1
    ensures ParsePortEntry(JStr(s)).None?
  {
    var r := ParsePortEntry(JStr(s));
    PortEntryShape(JStr(s));
    if r.Some? {
      CountCharAbsent(r.value.0, ':');
      if r.value.1.Some? {
        var h :| s == h + ":" + r.value.0 && ':' !in h && PyInt(h) == r.value.1;
        CountCharAbsent(h, ':');
        CountCharAppend(h + ":", r.value.0, ':');
        CountCharAppend(h, ":", ':');
      }
    }
  }

  /** The bindings `parse_ports` builds from a list of entries: later entries
      overwrite earlier ones with the same key. */
  function PortBindings(entries: seq<Json>): PortMap {
    Collect(MapSeq(entries, ParsePortEntry))
  }

  /** `parse_ports(field)`: a falsy field gives no bindings; a field that cannot be
      iterated raises TypeError (outside the per-entry try). */
  function Ports(field: Json): Try<PortMap> {
    if !Truthy(field) then Ok(map[])
    else
      match Iterate(field)
      case Ok(entries) => Ok(PortBindings(entries))
      case Raise(e) => Raise(e)
  }

  method ParsePorts(field: Json) returns (r: Try<PortMap>)
    ensures r == Ports(field)
  {
    var bindings: PortMap := map[];
    if !Truthy(field) {
      return Ok(bindings);
    }
    match Iterate(field) {
      case Raise(e) =>
        return Raise(e);
      case Ok(entries) =>
        ghost var xs := MapSeq(entries, ParsePortEntry);
        for i := 0 to |entries|
          invariant bindings == Collect(xs[..i])
        {
          assert xs[..i + 1][..i] == xs[..i];
          var e := ParsePortEntry(entries[i]);
          if e.Some? {
            bindings := bindings[e.value.0 := e.value.1];
          }
        }
        assert xs[..|entries|] == xs;
        return Ok(bindings);
    }
  }

  /** "80:8080/tcp" publishes container port 8080/tcp on host port 80. */
  lemma PortsHostExample()
    ensures Ports(JArr([JStr("80:8080/tcp")])) == Ok(map["8080/tcp" := Some(80)])
  {
    HostEightyEntry();
    PortsOfOne(JStr("80:8080/tcp"));
  }

  lemma HostEightyEntry()
    ensures ParsePortEntry(JStr("80:8080/tcp")) == Some(("8080/tcp", Some(80)))
  {
    PyIntEighty();
    EightyPieces();
    HostPortEntry("80", "8080/tcp");
  }

  lemma EightyPieces()
    ensures "80" + ":" + "8080/tcp" == "80:8080/tcp"
    ensures CountChar("8080/tcp", '/') == 1
  {
  }

  lemma PyIntEighty()
    ensures PyInt("80") == Some(80)
  {
    assert IntToString(80) == "80" by {
      assert NatToString(8) == "8";
      assert DigitChar(0) == '0';
    }
    PyIntRoundTrip(80);
  }

  /** "53/udp" lets the runtime pick the host port. */
  lemma PortsContainerExample()
    ensures Ports(JArr([JStr("53/udp")])) == Ok(map["53/udp" := None])
  {
    assert CountChar("53/udp", '/') == 1;
    ContainerPortEntry("53/udp");
    PortsOfOne(JStr("53/udp"));
  }

  lemma PortsOfOne(entry: Json)
    ensures Ports(JArr([entry]))
            == Ok(if ParsePortEntry(entry).Some? then map[ParsePortEntry(entry).value.0 := ParsePortEntry(entry).value.1]
                  else map[])
  {
    var xs := MapSeq([entry], ParsePortEntry);
    assert xs == [ParsePortEntry(entry)];
    assert xs[..0] == [];
    assert Collect(xs[..0]) == map[];
    assert PortBindings([entry]) == Collect(xs);
  }

  predicate HasPortKey(entry: Json, k: string) {
    HasKey(ParsePortEntry(entry), k)
  }

  /** A key is bound exactly when some entry parses to it. */
  lemma PortBindingsDomain(entries: seq<Json>, k: string)
    ensures k in PortBindings(entries) <==> exists i :: 0 <= i < |entries| && HasPortKey(entries[i], k)
  {
    var xs := MapSeq(entries, ParsePortEntry);
    CollectDomain(xs, k);
    assert forall i :: 0 <= i < |entries| ==> (HasPortKey(entries[i], k) <==> HasKey(xs[i], k));
  }

  /** The bound host port is the one of the last entry carrying that key. */
  lemma PortBindingsLastWins(entries: seq<Json>, i: nat)
    requires i < |entries| && ParsePortEntry(entries[i]).Some?
    requires forall j :: i < j < |entries| ==> !HasPortKey(entries[j], ParsePortEntry(entries[i]).value.0)
    ensures var (k, v) := ParsePortEntry(entries[i]).value;
            k in PortBindings(entries) && PortBindings(entries)[k] == v
  {
    var xs := MapSeq(entries, ParsePortEntry);
    assert forall j :: i < j < |entries| ==> !HasKey(xs[j], xs[i].value.0);
    CollectLastWins(xs, i);
  }

  /** A skipped entry leaves the bindings exactly as if it were absent; the
      entries after it are still processed. */
  lemma PortBindingsSkip(a: seq<Json>, x: Json, b: seq<Json>)
    requires ParsePortEntry(x).None?
    ensures PortBindings(a + [x] + b) == PortBindings(a + b)
  {
    MapSeqAppend(a + [x], b, ParsePortEntry);
    MapSeqAppend(a, [x], ParsePortEntry);
    MapSeqAppend(a, b, ParsePortEntry);
    assert MapSeq([x], ParsePortEntry) == [None];
    CollectSkip(MapSeq(a, ParsePortEntry), MapSeq(b, ParsePortEntry));
  }

  // ================================================================ volumes

  /** A volume binding as the Docker SDK takes it: a host path bound to a
      container path with a mode, or an anonymous volume (`{}`). */
  datatype Volume = Bind(bind: Json, mode: string) | Anonymous

  type VolumeMap = map<Json, Volume>

  /** The key and binding one `volumes` entry asks for, or None when the entry is
      skipped (not a dict, or no `container`). */
  function VolumeEntry(vol: Json): Option<(Json, Volume)> {
    if vol.JObj? && Has(vol.fields, "container") then
      var container := Get(vol.fields, "container");
      if Has(vol.fields, "bind") then
        var mode := if Truthy(GetOr(vol.fields, "readonly", JBool(false))) then "ro" else "rw";
        Some((Get(vol.fields, "bind"), Bind(container, mode)))
      else
        Some((container, Anonymous))
    else None
  }

  /** The bindings `parse_volumes` builds; storing under a list or dict key raises
      TypeError, which nothing in the function catches. */
  function VolumeBindings(vols: seq<Json>): Try<VolumeMap> {
    CollectChecked(MapSeq(vols, VolumeEntry), Hashable, Unhashable)
  }

  /** `parse_volumes(field)`. */
  function Volumes(field: Json): Try<VolumeMap> {
    if !Truthy(field) then Ok(map[])
    else
      match Iterate(field)
      case Ok(vols) => VolumeBindings(vols)
      case Raise(e) => Raise(e)
  }

  method ParseVolumes(field: Json) returns (r: Try<VolumeMap>)
    ensures r == Volumes(field)
  {
    var bindings: VolumeMap := map[];
    if !Truthy(field) {
      return Ok(bindings);
    }
    match Iterate(field) {
      case Raise(e) =>
        return Raise(e);
      case Ok(vols) =>
        ghost var xs := MapSeq(vols, VolumeEntry);
        for i := 0 to |vols|
          invariant CollectChecked(xs[..i], Hashable, Unhashable) == Ok(bindings)
        {
          assert xs[..i + 1][..i] == xs[..i];
          match VolumeEntry(vols[i]) {
            case Some((k, b)) =>
              if !Hashable(k) {
                CollectCheckedOk(xs[..i], Hashable, Unhashable);
                assert forall j :: 0 <= j < i ==> xs[..i][j] == xs[j];
                CollectCheckedFirstRefused(xs, Hashable, Unhashable, i);
                return Raise(Unhashable(k));
              }
              bindings := bindings[k := b];
            case None =>
          }
        }
        assert xs[..|vols|] == xs;
        return Ok(bindings);
    }
  }

  predicate HasVolumeKey(vol: Json, k: Json) {
    HasKey(VolumeEntry(vol), k)
  }

  /** Parsing succeeds exactly when every recognised entry's key is hashable; the
      keys bound are then exactly those of the recognised entries. */
  lemma VolumeBindingsDomain(vols: seq<Json>, k: Json)
    ensures VolumeBindings(vols).Ok? <==>
              forall i :: 0 <= i < |vols| && VolumeEntry(vols[i]).Some? ==> Hashable(VolumeEntry(vols[i]).value.0)
    ensures VolumeBindings(vols).Ok? ==>
              (k in VolumeBindings(vols).value <==> exists i :: 0 <= i < |vols| && HasVolumeKey(vols[i], k))
  {
    var xs := MapSeq(vols, VolumeEntry);
    CollectCheckedOk(xs, Hashable, Unhashable);
    CollectDomain(xs, k);
    assert forall i :: 0 <= i < |vols| ==> (HasVolumeKey(vols[i], k) <==> HasKey(xs[i], k));
  }

  /** What one entry asks for: a dict with `container` and `bind` binds the host
      path to the container path, read-only exactly when `readonly` is present and
      truthy; a dict with only `container` asks for an anonymous volume; anything
      else is skipped. */
  lemma VolumeEntryShape(vol: Json)
    ensures vol.JObj? && Has(vol.fields, "container") && Has(vol.fields, "bind") ==>
              VolumeEntry(vol)
              == Some((Lookup(vol.fields, "bind").value,
                       Bind(Lookup(vol.fields, "container").value,
                            if Has(vol.fields, "readonly") && Truthy(Lookup(vol.fields, "readonly").value)
                            then "ro" else "rw")))
    ensures vol.JObj? && Has(vol.fields, "container") && !Has(vol.fields, "bind") ==>
              VolumeEntry(vol) == Some((Lookup(vol.fields, "container").value, Anonymous))
    ensures !vol.JObj? || !Has(vol.fields, "container") ==> VolumeEntry(vol).None?
  {
  }

  /** When parsing succeeds, a key is bound to the binding of the last recognised
      entry with that key. */
  lemma VolumeBindingsLastWins(vols: seq<Json>, i: nat)
    requires VolumeBindings(vols).Ok?
    requires i < |vols| && VolumeEntry(vols[i]).Some?
    requires forall j :: i < j < |vols| ==> !HasVolumeKey(vols[j], VolumeEntry(vols[i]).value.0)
    ensures var (k, v) := VolumeEntry(vols[i]).value;
            k in VolumeBindings(vols).value && VolumeBindings(vols).value[k] == v
  {
    var xs := MapSeq(vols, VolumeEntry);
    CollectCheckedOk(xs, Hashable, Unhashable);
    assert forall j :: i < j < |vols| ==> !HasKey(xs[j], xs[i].value.0);
    CollectLastWins(xs, i);
  }

  /** The TypeError is the one of the first recognised entry with an unhashable key. */
  lemma VolumeBindingsFirstUnhashable(vols: seq<Json>, i: nat)
    requires i < |vols| && VolumeEntry(vols[i]).Some? && !Hashable(VolumeEntry(vols[i]).value.0)
    requires forall j :: 0 <= j < i && VolumeEntry(vols[j]).Some? ==> Hashable(VolumeEntry(vols[j]).value.0)
    ensures VolumeBindings(vols) == Raise(Unhashable(VolumeEntry(vols[i]).value.0))
  {
    CollectCheckedFirstRefused(MapSeq(vols, VolumeEntry), Hashable, Unhashable, i);
  }

  /** A skipped entry leaves the result exactly as if it were absent. */
  lemma VolumeBindingsSkip(a: seq<Json>, x: Json, b: seq<Json>)
    requires VolumeEntry(x).None?
    ensures VolumeBindings(a + [x] + b) == VolumeBindings(a + b)
  {
    MapSeqAppend(a + [x], b, VolumeEntry);
    MapSeqAppend(a, [x], VolumeEntry);
    MapSeqAppend(a, b, VolumeEntry);
    assert MapSeq([x], VolumeEntry) == [None];
    CollectCheckedSkip(MapSeq(a, VolumeEntry), MapSeq(b, VolumeEntry), Hashable, Unhashable);
  }

  /** A dict with `container` and `bind` binds the host path, read-only when
      `readonly` is truthy. */
  lemma VolumeBindExample()
    ensures Volumes(JArr([JObj([("container", JStr("/data")), ("bind", JStr("/host")), ("readonly", JBool(true))])]))
            == Ok(map[JStr("/host") := Bind(JStr("/data"), "ro")])
  {
    var vol := JObj([("container", JStr("/data")), ("bind", JStr("/host")), ("readonly", JBool(true))]);
    assert Lookup(vol.fields, "container") == Some(JStr("/data"));
    assert Lookup(vol.fields, "bind") == Some(JStr("/host"));
    assert Lookup(vol.fields, "readonly") == Some(JBool(true));
    assert VolumeEntry(vol) == Some((JStr("/host"), Bind(JStr("/data"), "ro")));
    var xs := [Some((JStr("/host"), Bind(JStr("/data"), "ro")))];
    assert MapSeq([vol], VolumeEntry) == xs;
    assert xs[..0] == [];
    assert Hashable(JStr("/host"));
    assert VolumeBindings([vol]) == Ok(map[JStr("/host") := Bind(JStr("/data"), "ro")]);
  }

  /** A dict with `container` and `bind` but no `readonly` binds read-write. */
  lemma VolumeReadWriteExample()
    ensures Volumes(JArr([JObj([("container", JStr("/data")), ("bind", JStr("/host"))])]))
            == Ok(map[JStr("/host") := Bind(JStr("/data"), "rw")])
  {
    var vol := JObj([("container", JStr("/data")), ("bind", JStr("/host"))]);
    assert Lookup(vol.fields, "container") == Some(JStr("/data"));
    assert Lookup(vol.fields, "bind") == Some(JStr("/host"));
    assert Lookup(vol.fields, "readonly") == None;
    assert VolumeEntry(vol) == Some((JStr("/host"), Bind(JStr("/data"), "rw")));
    var xs := [Some((JStr("/host"), Bind(JStr("/data"), "rw")))];
    assert MapSeq([vol], VolumeEntry) == xs;
    assert xs[..0] == [];
    assert Hashable(JStr("/host"));
    assert VolumeBindings([vol]) == Ok(map[JStr("/host") := Bind(JStr("/data"), "rw")]);
  }

  /** A dict with only `container` asks for an anonymous volume at that path. */
  lemma VolumeAnonymousExample()
    ensures Volumes(JArr([JObj([("container", JStr("/data"))])])) == Ok(map[JStr("/data") := Anonymous])
  {
    var vol := JObj([("container", JStr("/data"))]);
    assert Lookup(vol.fields, "container") == Some(JStr("/data"));
    assert Lookup(vol.fields, "bind") == None;
    assert VolumeEntry(vol) == Some((JStr("/data"), Anonymous));
    var xs := [Some((JStr("/data"), Anonymous))];
    assert MapSeq([vol], VolumeEntry) == xs;
    assert xs[..0] == [];
    assert Hashable(JStr("/data"));
    assert VolumeBindings([vol]) == Ok(map[JStr("/data") := Anonymous]);
  }

  // ================================================================ environment

  /** The "NAME=VALUE" string one `env` entry gives, or None when it is skipped
      (not a dict, or no `name`). */
  function EnvEntry(e: Json): Option<string> {
    if e.JObj? && Has(e.fields, "name") then
      var value := GetOr(e.fields, "value", GetOr(e.fields, "default", JStr("")));
      Some(Str(Get(e.fields, "name")) + "=" + Str(value))
    else None
  }

  function EnvList(es: seq<Json>): seq<string> {
    Somes(MapSeq(es, EnvEntry))
  }

  /** `parse_env(field)`. */
  function Env(field: Json): Try<seq<string>> {
    if !Truthy(field) then Ok([])
    else
      match Iterate(field)
      case Ok(es) => Ok(EnvList(es))
      case Raise(e) => Raise(e)
  }

  method ParseEnv(field: Json) returns (r: Try<seq<string>>)
    ensures r == Env(field)
  {
    var envList: seq<string> := [];
    if !Truthy(field) {
      return Ok(envList);
    }
    match Iterate(field) {
      case Raise(e) =>
        return Raise(e);
      case Ok(es) =>
        ghost var xs := MapSeq(es, EnvEntry);
        for i := 0 to |es|
          invariant envList == Somes(xs[..i])
        {
          assert xs[..i + 1][..i] == xs[..i];
          match EnvEntry(es[i]) {
            case Some(s) => envList := envList + [s];
            case None =>
          }
        }
        assert xs[..|es|] == xs;
        return Ok(envList);
    }
  }

  /** The environment list of a concatenation is the concatenation of the lists:
      entries keep their input order. */
  lemma EnvListAppend(a: seq<Json>, b: seq<Json>)
    ensures EnvList(a + b) == EnvList(a) + EnvList(b)
  {
    MapSeqAppend(a, b, EnvEntry);
    SomesAppend(MapSeq(a, EnvEntry), MapSeq(b, EnvEntry));
  }

  /** One string per entry that has a `name`, none for the others. */
  lemma EnvListLength(es: seq<Json>)
    ensures |EnvList(es)| <= |es|
    ensures |EnvList(es)| == |es| <==> forall i :: 0 <= i < |es| ==> EnvEntry(es[i]).Some?
  {
    SomesLength(MapSeq(es, EnvEntry));
  }

  /** A present `value` wins over `default`, which wins over the empty string. */
  lemma EnvValuePrecedence(d: Dict, name: string)
    requires Lookup(d, "name") == Some(JStr(name))
    ensures Has(d, "value") ==> EnvEntry(JObj(d)) == Some(name + "=" + Str(Lookup(d, "value").value))
    ensures !Has(d, "value") && Has(d, "default") ==>
              EnvEntry(JObj(d)) == Some(name + "=" + Str(Lookup(d, "default").value))
    ensures !Has(d, "value") && !Has(d, "default") ==> EnvEntry(JObj(d)) == Some(name + "=")
  {
    assert Str(JStr("")) == "";
    assert name + "=" + "" == name + "=";
  }

  lemma EnvDefaultExample()
    ensures Env(JArr([JObj([("name", JStr("FOO")), ("default", JStr("bar"))])])) == Ok(["FOO=bar"])
  {
    var e := JObj([("name", JStr("FOO")), ("default", JStr("bar"))]);
    assert Lookup(e.fields, "name") == Some(JStr("FOO"));
    assert Lookup(e.fields, "value") == None;
    assert Lookup(e.fields, "default") == Some(JStr("bar"));
    assert Get(e.fields, "name") == JStr("FOO");
    assert GetOr(e.fields, "value", GetOr(e.fields, "default", JStr(""))) == JStr("bar");
    assert Str(JStr("FOO")) == "FOO";
    assert "FOO" + "=" + "bar" == "FOO=bar";
    assert EnvEntry(e) == Some("FOO=bar");
    assert MapSeq([e], EnvEntry) == [Some("FOO=bar")];
    assert [Some("FOO=bar")][..0] == [];
    assert Somes([Some("FOO=bar")]) == ["FOO=bar"];
    assert EnvList([e]) == ["FOO=bar"];
  }

  lemma EnvValueExample()
    ensures Env(JArr([JObj([("name", JStr("FOO")), ("default", JStr("bar")), ("value", JStr("baz"))])]))
            == Ok(["FOO=baz"])
  {
    var e := JObj([("name", JStr("FOO")), ("default", JStr("bar")), ("value", JStr("baz"))]);
    assert Lookup(e.fields, "name") == Some(JStr("FOO"));
    assert Lookup(e.fields, "value") == Some(JStr("baz"));
    assert Get(e.fields, "name") == JStr("FOO");
    assert GetOr(e.fields, "value", GetOr(e.fields, "default", JStr(""))) == JStr("baz");
    assert Str(JStr("FOO")) == "FOO";
    assert "FOO" + "=" + "baz" == "FOO=baz";
    assert EnvEntry(e) == Some("FOO=baz");
    assert MapSeq([e], EnvEntry) == [Some("FOO=baz")];
    assert [Some("FOO=baz")][..0] == [];
    assert Somes([Some("FOO=baz")]) == ["FOO=baz"];
    assert EnvList([e]) == ["FOO=baz"];
  }

  // ================================================================ name and restart policy

  predicate IsSanitized(name: string) {
    ' ' !in name && forall i :: 0 <= i < |name| ==> !IsAsciiUpper(name[i])
  }

  /** The container name (line 120): `title` when the key is present, else the image
      up to its first ':', then lower-cased with spaces replaced by '_'. The default
      argument `image.split(':')[0]` is evaluated even when `title` is present, so a
      non-string image raises there; a non-string title raises on `.lower()`. */
  function ContainerName(t: Dict): (r: Try<string>)
    ensures r.Ok? ==> Get(t, "image").JStr? && IsSanitized(r.value)
    ensures !Get(t, "image").JStr? ==> r == Raise(NoAttribute(Get(t, "image"), "split"))
    ensures Get(t, "image").JStr? && Has(t, "title") && Get(t, "title").JStr? ==>
              r == Ok(Lower(ReplaceChar(Get(t, "title").s, ' ', '_')))
    ensures Get(t, "image").JStr? && Has(t, "title") && !Get(t, "title").JStr? ==>
              r == Raise(NoAttribute(Get(t, "title"), "lower"))
  {
    var image := Get(t, "image");
    if !image.JStr? then Raise(NoAttribute(image, "split"))
    else
      var title := GetOr(t, "title", JStr(Split(image.s, ':')[0]));
      if !title.JStr? then Raise(NoAttribute(title, "lower"))
      else
        var name := ReplaceChar(Lower(title.s), ' ', '_');
        LowerReplaceCommute(title.s);
        Ok(name)
  }

  /** Without a title, the name comes from the repository part of "repo:tag". */
  lemma NameFromImage(t: Dict, repo: string, tag: string)
    requires !Has(t, "title") && Get(t, "image") == JStr(repo + ":" + tag)
    requires ':' !in repo
    ensures ContainerName(t) == Ok(ReplaceChar(Lower(repo), ' ', '_'))
  {
    SplitAfterPiece(repo, tag, ':');
  }

  /** Without a title, an image with no tag is its own repository part. */
  lemma NameFromUntaggedImage(t: Dict, repo: string)
    requires !Has(t, "title") && Get(t, "image") == JStr(repo)
    requires ':' !in repo
    ensures ContainerName(t) == Ok(ReplaceChar(Lower(repo), ' ', '_'))
  {
    SplitNoSeparator(repo, ':');
  }

  /** The restart policy Name (lines 143-144): `restart_policy` when truthy, else
      "unless-stopped"; always a truthy value. */
  function RestartPolicy(t: Dict): (r: Json)
    ensures Truthy(r)
    ensures Truthy(Get(t, "restart_policy")) ==> r == Get(t, "restart_policy")
    ensures !Truthy(Get(t, "restart_policy")) ==> r == JStr("unless-stopped")
  {
    var policy := Get(t, "restart_policy");
    if Truthy(policy) then policy else JStr("unless-stopped")
  }

  // ================================================================ install

  /** Everything `containers.run` receives (lines 149-157). */
  datatype ContainerSpec = ContainerSpec(
    image: string,
    name: string,
    ports: PortMap,
    volumes: VolumeMap,
    environment: seq<string>,
    restartPolicy: Json)

  /** Lines 134-144: the ports, volumes and environment are parsed in that order,
      the first error raised ends the translation. */
  function Translate(t: Dict, image: string, name: string): (r: Try<ContainerSpec>)
    ensures r.Ok? ==> r.value.image == image && r.value.name == name
    ensures r.Ok? <==> Ports(GetOr(t, "ports", JArr([]))).Ok? && Volumes(GetOr(t, "volumes", JArr([]))).Ok?
                       && Env(GetOr(t, "env", JArr([]))).Ok?
  {
    match Ports(GetOr(t, "ports", JArr([])))
    case Raise(e) => Raise(e)
    case Ok(ports) =>
      match Volumes(GetOr(t, "volumes", JArr([])))
      case Raise(e) => Raise(e)
      case Ok(volumes) =>
        match Env(GetOr(t, "env", JArr([])))
        case Raise(e) => Raise(e)
        case Ok(env) => Ok(ContainerSpec(image, name, ports, volumes, env, RestartPolicy(t)))
  }

  /** What the runtime reports when a pull or a run fails. */
  datatype Fault = ImageNotFound | ApiError(text: string) | Unexpected(text: string)

  /** A call the installer makes on the runtime. */
  datatype Call = Pull(image: string) | Run(spec: ContainerSpec)

  /** An abstract container runtime: the names of its containers, the log of calls
      made on it, and the answers it will give to a pull and to a run.
      `containers.run` creates the container and then starts it; when the start
      fails (`runFault` with `failedRunLeavesContainer`), the created container
      stays behind under its name. */
  class Runtime {
    var containers: set<string>
    var calls: seq<Call>
    const pullFault: Option<Fault>
    const runFault: Option<Fault>
    const failedRunLeavesContainer: bool

    constructor (existing: set<string>, pullFault: Option<Fault>, runFault: Option<Fault>, leaves: bool)
      ensures containers == existing && calls == []
      ensures this.pullFault == pullFault && this.runFault == runFault
      ensures failedRunLeavesContainer == leaves
    {
      containers := existing;
      calls := [];
      this.pullFault := pullFault;
      this.runFault := runFault;
      failedRunLeavesContainer := leaves;
    }

    /** `containers.get(name)` found something. */
    method Exists(name: string) returns (found: bool)
      ensures found <==> name in containers
    {
      found := name in containers;
    }

    method PullImage(image: string) returns (fault: Option<Fault>)
      modifies this
      ensures calls == old(calls) + [Pull(image)] && containers == old(containers)
      ensures fault == pullFault
    {
      calls := calls + [Pull(image)];
      fault := pullFault;
    }

    method RunContainer(spec: ContainerSpec) returns (fault: Option<Fault>)
      modifies this
      ensures calls == old(calls) + [Run(spec)]
      ensures fault == runFault
      ensures containers == if fault.None? || failedRunLeavesContainer then old(containers) + {spec.name}
                            else old(containers)
    {
      calls := calls + [Run(spec)];
      fault := runFault;
      if fault.None? || failedRunLeavesContainer {
        containers := containers + {spec.name};
      }
    }
  }

  /** The messages of the three exception handlers (lines 161-169). */
  function FaultMessage(f: Fault, image: string): string {
    match f
    case ImageNotFound => "Image not found: " + image
    case ApiError(text) => "Docker API error: " + text
    case Unexpected(text) => UnexpectedMessage(text)
  }

  function UnexpectedMessage(text: string): string {
    "An unexpected error occurred: " + text
  }

  function ConflictMessage(name: string): string {
    "A container named '" + name + "' already exists."
  }

  function StartedMessage(name: string): string {
    "Container '" + name + "' started successfully."
  }

  const NoClientMessage := "Docker client not available."
  const NoImageMessage := "Missing image name in template."

  /** What `install_container_from_template` returns with a reachable client, and
      the calls it makes on the runtime on the way. */
  datatype Outcome = Outcome(success: bool, message: string, calls: seq<Call>)

  function InstallOutcome(t: Dict, existing: set<string>, pullFault: Option<Fault>, runFault: Option<Fault>): Outcome {
    var image := Get(t, "image");
    if !Truthy(image) then Outcome(false, NoImageMessage, [])
    else
      match ContainerName(t)
      case Raise(e) => Outcome(false, UnexpectedMessage(e), [])
      case Ok(name) =>
        if name in existing then Outcome(false, ConflictMessage(name), [])
        else if pullFault.Some? then Outcome(false, FaultMessage(pullFault.value, image.s), [Pull(image.s)])
        else
          match Translate(t, image.s, name)
          case Raise(e) => Outcome(false, UnexpectedMessage(e), [Pull(image.s)])
          case Ok(spec) =>
            if runFault.Some? then Outcome(false, FaultMessage(runFault.value, image.s), [Pull(image.s), Run(spec)])
            else Outcome(true, StartedMessage(name), [Pull(image.s), Run(spec)])
  }

  /** Whether an install with outcome `o` leaves a container under the derived name:
      it got as far as the run, and the run either succeeded or left its container. */
  predicate Creates(o: Outcome, leaves: bool) {
    |o.calls| == 2 && (o.success || leaves)
  }

  /** `install_container_from_template(t)`; `client` is null when no runtime could be
      reached. */
  method Install(client: Runtime?, t: Dict) returns (success: bool, message: string)
    modifies client
    ensures client == null ==> !success && message == NoClientMessage
    ensures client != null ==>
              var o := InstallOutcome(t, old(client.containers), client.pullFault, client.runFault);
              && success == o.success && message == o.message
              && client.calls == old(client.calls) + o.calls
              && client.containers == if Creates(o, client.failedRunLeavesContainer)
                                      then old(client.containers) + {ContainerName(t).value}
                                      else old(client.containers)
  {
    if client == null {
      return false, NoClientMessage;
    }
    var image := Get(t, "image");
    if !Truthy(image) {
      return false, NoImageMessage;
    }
    var name;
    match ContainerName(t) {
      case Raise(e) => return false, UnexpectedMessage(e);
      case Ok(n) => name := n;
    }
    var found := client.Exists(name);
    if found {
      return false, ConflictMessage(name);
    }
    var pullFault := client.PullImage(image.s);
    if pullFault.Some? {
      return false, FaultMessage(pullFault.value, image.s);
    }
    var ports := ParsePorts(GetOr(t, "ports", JArr([])));
    if ports.Raise? {
      return false, UnexpectedMessage(ports.message);
    }
    var volumes := ParseVolumes(GetOr(t, "volumes", JArr([])));
    if volumes.Raise? {
      return false, UnexpectedMessage(volumes.message);
    }
    var env := ParseEnv(GetOr(t, "env", JArr([])));
    if env.Raise? {
      return false, UnexpectedMessage(env.message);
    }
    var spec := ContainerSpec(image.s, name, ports.value, volumes.value, env.value, RestartPolicy(t));
    var runFault := client.RunContainer(spec);
    if runFault.Some? {
      return false, FaultMessage(runFault.value, image.s);
    }
    return true, StartedMessage(name);
  }

  /** The runtime sees at most a pull followed by a run, of the template's image
      under the derived name; nothing at all before the conflict check passes. */
  lemma InstallCallOrder(t: Dict, existing: set<string>, pullFault: Option<Fault>, runFault: Option<Fault>)
    ensures var o := InstallOutcome(t, existing, pullFault, runFault);
            && |o.calls| <= 2
            && (o.calls != [] ==> Truthy(Get(t, "image"))
                                  && ContainerName(t).Ok? && ContainerName(t).value !in existing
                                  && o.calls[0] == Pull(Get(t, "image").s))
            && (|o.calls| == 2 ==> o.calls[1].Run? && o.calls[1].spec.name == ContainerName(t).value
                                   && o.calls[1].spec.image == Get(t, "image").s && pullFault.None?)
            && (o.success ==> |o.calls| == 2)
  {
  }

  /** A missing or empty image ends the install before anything else is asked of
      the runtime. */
  lemma InstallNoImage(t: Dict, existing: set<string>, pullFault: Option<Fault>, runFault: Option<Fault>)
    requires !Truthy(Get(t, "image"))
    ensures InstallOutcome(t, existing, pullFault, runFault) == Outcome(false, "Missing image name in template.", [])
  {
  }

  /** A container is left behind only by an install that reached the run, and a
      successful install always leaves one; a second install of the same template
      then stops at the name conflict. */
  lemma InstallLeavesName(t: Dict, existing: set<string>, pullFault: Option<Fault>, runFault: Option<Fault>,
                          leaves: bool)
    requires Creates(InstallOutcome(t, existing, pullFault, runFault), leaves)
    ensures ContainerName(t).Ok? && ContainerName(t).value !in existing && pullFault.None?
    ensures runFault.Some? ==> leaves
    ensures InstallOutcome(t, existing + {ContainerName(t).value}, pullFault, runFault)
            == Outcome(false, "A container named '" + ContainerName(t).value + "' already exists.", [])
  {
    InstallCallOrder(t, existing, pullFault, runFault);
    InstallSuccess(t, existing, pullFault, runFault);
    InstallConflict(t, existing + {ContainerName(t).value}, pullFault, runFault);
  }

  /** An existing container with the derived name ends the install with a message
      naming it; the runtime is never asked to pull or run. */
  lemma InstallConflict(t: Dict, existing: set<string>, pullFault: Option<Fault>, runFault: Option<Fault>)
    requires Truthy(Get(t, "image")) && ContainerName(t).Ok? && ContainerName(t).value in existing
    ensures InstallOutcome(t, existing, pullFault, runFault)
            == Outcome(false, "A container named '" + ContainerName(t).value + "' already exists.", [])
  {
  }

  /** Success exactly when every step passes; its message names the container. */
  lemma InstallSuccess(t: Dict, existing: set<string>, pullFault: Option<Fault>, runFault: Option<Fault>)
    ensures InstallOutcome(t, existing, pullFault, runFault).success <==>
              && Truthy(Get(t, "image")) && ContainerName(t).Ok? && ContainerName(t).value !in existing
              && pullFault.None? && runFault.None?
              && Translate(t, Get(t, "image").s, ContainerName(t).value).Ok?
    ensures InstallOutcome(t, existing, pullFault, runFault).success ==>
              InstallOutcome(t, existing, pullFault, runFault).message
              == "Container '" + ContainerName(t).value + "' started successfully."
  {
  }
}
