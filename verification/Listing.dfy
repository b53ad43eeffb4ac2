/** The GPUs of a node as the /proc script prints them and as the operator reads them back. */
module Listing {
  import opened Api
  import opened Text

  /** One GPU directory of /proc/driver/nvidia/gpus. */
  datatype Gpu = Gpu(minor: string, uuid: string, bus: string)

  type Info = map<string, string>

  datatype Parsed = Infos(infos: seq<Info>) | Malformed(line: string) | Unsupported(field: string)

  const QUERY := "device_minor,gpu_uuid,pci.bus_id"

  /** The line the script prints for a GPU, with its newline. */
  function Line(g: Gpu): string {
    g.minor + "," + g.uuid + "," + g.bus
  }

  function Print(gpus: seq<Gpu>): string
    decreases |gpus|
  {
    if gpus == [] then "" else Line(gpus[0]) + "\n" + Print(gpus[1..])
  }

  function InfoOf(g: Gpu): Info {
    map["device_minor" := g.minor, "gpu_uuid" := g.uuid, "pci.bus_id" := g.bus]
  }

  /** The values of a line with at least three parts. */
  function Values(parts: seq<string>): Info
    requires |parts| >= 3
  {
    InfoOf(Gpu(TrimSpace(parts[0]), TrimSpace(parts[1]), TrimSpace(parts[2])))
  }

  /** The first requested field that the listing does not have. */
  function Missing(values: Info, fields: seq<string>): Option<string>
    decreases |fields|
  {
    if fields == [] then None
    else if TrimSpace(fields[0]) !in values then Some(TrimSpace(fields[0]))
    else Missing(values, fields[1..])
  }

  /** The values of the requested fields. */
  function Select(values: Info, fields: seq<string>): Info
    decreases |fields|
  {
    if fields == [] then map[]
    else
      var last := TrimSpace(fields[|fields| - 1]);
      var before := Select(values, fields[..|fields| - 1]);
      if last in values then before[last := values[last]] else before
  }

  function ParseLines(lines: seq<string>, fields: seq<string>): Parsed
    decreases |lines|
  {
    if lines == [] then Infos([])
    else if lines[0] == "" then ParseLines(lines[1..], fields)
    else
      var parts := Split(lines[0], ',');
      if |parts| < 3 then Malformed(lines[0])
      else if Missing(Values(parts), fields).Some? then Unsupported(Missing(Values(parts), fields).value)
      else
        var rest := ParseLines(lines[1..], fields);
        if rest.Infos? then Infos([Select(Values(parts), fields)] + rest.infos) else rest
  }

  function Parse(out: string, query: string): Parsed {
    if TrimSpace(out) == "" then Infos([]) else ParseLines(Split(TrimSpace(out), '\n'), Split(query, ','))
  }

  /** The result of reading the rest, with the entries already read in front. */
  function Prefixed(infos: seq<Info>, rest: Parsed): Parsed {
    if rest.Infos? then Infos(infos + rest.infos) else rest
  }

  method SelectFields(values: Info, fields: seq<string>) returns (unsupported: Option<string>, info: Info)
    ensures unsupported == Missing(values, fields)
    ensures unsupported.None? ==> info == Select(values, fields)
  {
    info := map[];
    for i := 0 to |fields|
      invariant Missing(values, fields) == Missing(values, fields[i..])
      invariant info == Select(values, fields[..i])
    {
      assert fields[..i + 1][..i] == fields[..i];
      var name := TrimSpace(fields[i]);
      if name !in values {
        return Some(name), info;
      }
      info := info[name := values[name]];
    }
    assert fields[..|fields|] == fields;
    unsupported := None;
  }

  method ParseListing(out: string, query: string) returns (r: Parsed)
    ensures r == Parse(out, query)
  {
    hide Split, Missing, Select, TrimSpace, Values;
    var fields := Split(query, ',');
    var trimmed := TrimSpace(out);
    if trimmed == "" {
      return Infos([]);
    }
    var lines := Split(trimmed, '\n');
    var infos := [];
    for i := 0 to |lines|
      invariant ParseLines(lines, fields) == Prefixed(infos, ParseLines(lines[i..], fields))
    {
      assert lines[i..][1..] == lines[i + 1..];
      if lines[i] != "" {
        var parts := Split(lines[i], ',');
        if |parts| < 3 {
          return Malformed(lines[i]);
        }
        var unsupported, info := SelectFields(Values(parts), fields);
        if unsupported.Some? {
          return Unsupported(unsupported.value);
        }
        infos := infos + [info];
      }
    }
    r := Infos(infos);
  }

  /** A query is refused for the first field the listing does not have. */
  lemma {:induction false} MissingMeans(values: Info, fields: seq<string>)
    ensures match Missing(values, fields)
      case None => forall i :: 0 <= i < |fields| ==> TrimSpace(fields[i]) in values
      case Some(name) =>
        exists i :: 0 <= i < |fields| && name == TrimSpace(fields[i]) && name !in values
          && forall j :: 0 <= j < i ==> TrimSpace(fields[j]) in values
    decreases |fields|
  {
    hide TrimSpace;
    if fields != [] && TrimSpace(fields[0]) in values {
      var rest := fields[1..];
      MissingMeans(values, rest);
      assert forall i :: 0 < i < |fields| ==> fields[i] == rest[i - 1];
      if Missing(values, rest).Some? {
        var i :| 0 <= i < |rest| && Missing(values, rest).value == TrimSpace(rest[i])
          && TrimSpace(rest[i]) !in values && forall j :: 0 <= j < i ==> TrimSpace(rest[j]) in values;
        assert fields[i + 1] == rest[i];
      }
    }
  }

  /** What is selected are the requested fields with their own values. */
  lemma {:induction false} SelectMeans(values: Info, fields: seq<string>)
    ensures var info := Select(values, fields);
      forall k :: k in info <==> k in values && exists i :: 0 <= i < |fields| && TrimSpace(fields[i]) == k
    ensures forall k :: k in Select(values, fields) ==> Select(values, fields)[k] == values[k]
    decreases |fields|
  {
    hide TrimSpace;
    if fields != [] {
      var n := |fields| - 1;
      SelectMeans(values, fields[..n]);
      assert forall i :: 0 <= i < n ==> fields[..n][i] == fields[i];
    }
  }

  // The round trip.

  /** Text the script can print between its commas: awk's third field is not empty and has no spaces. */
  ghost predicate Clean(s: string) {
    s != "" && ',' !in s && forall c :: c in s ==> !IsSpace(c)
  }

  ghost predicate CleanGpu(g: Gpu) {
    Clean(g.minor) && Clean(g.uuid) && Clean(g.bus)
  }

  lemma LineParts(g: Gpu)
    requires CleanGpu(g)
    ensures Split(Line(g), ',') == [g.minor, g.uuid, g.bus]
  {
    hide Split, IsSpace;
    SplitThree(g.minor, g.uuid, g.bus, ',');
    assert "," == [','];
  }

  lemma LineEdges(g: Gpu)
    requires CleanGpu(g)
    ensures Line(g) != "" && '\n' !in Line(g) && !IsSpace(Line(g)[0]) && !IsSpace(Line(g)[|Line(g)| - 1])
  {
    assert IsSpace('\n') && !IsSpace(',');
    hide IsSpace;
    assert Line(g)[0] == g.minor[0] && Line(g)[|Line(g)| - 1] == g.bus[|g.bus| - 1];
    assert '\n' !in g.minor && '\n' !in g.uuid && '\n' !in g.bus && '\n' !in ",";
  }

  function Lines(gpus: seq<Gpu>): (lines: seq<string>)
    ensures |lines| == |gpus| && forall i :: 0 <= i < |gpus| ==> lines[i] == Line(gpus[i])
  {
    seq(|gpus|, i requires 0 <= i < |gpus| => Line(gpus[i]))
  }

  lemma {:induction false} PrintJoins(gpus: seq<Gpu>)
    requires gpus != [] && forall i :: 0 <= i < |gpus| ==> CleanGpu(gpus[i])
    ensures var text := Join(Lines(gpus), '\n');
      Print(gpus) == text + "\n" && text != "" && !IsSpace(text[0]) && !IsSpace(text[|text| - 1])
    decreases |gpus|
  {
    hide IsSpace;
    LineEdges(gpus[0]);
    if |gpus| > 1 {
      PrintJoins(gpus[1..]);
      assert Lines(gpus)[1..] == Lines(gpus[1..]);
    } else {
      assert Print(gpus[1..]) == "";
    }
  }

  lemma CleanTrims(s: string)
    requires Clean(s)
    ensures TrimSpace(s) == s
  {
    TrimEdges(s);
  }

  lemma QueryFields()
    ensures Split(QUERY, ',') == ["device_minor", "gpu_uuid", "pci.bus_id"]
  {
    hide Split;
    var a, b, c := "device_minor", "gpu_uuid", "pci.bus_id";
    assert a + [','] + b + [','] + c == QUERY;
    SplitThree(a, b, c, ',');
  }

  lemma SelectAll(g: Gpu)
    ensures var fields := ["device_minor", "gpu_uuid", "pci.bus_id"];
      Missing(InfoOf(g), fields).None? && Select(InfoOf(g), fields) == InfoOf(g)
  {
    var fields := ["device_minor", "gpu_uuid", "pci.bus_id"];
    TrimEdges("device_minor");
    TrimEdges("gpu_uuid");
    TrimEdges("pci.bus_id");
    assert fields[1..] == ["gpu_uuid", "pci.bus_id"] && fields[1..][1..] == ["pci.bus_id"]
      && fields[1..][1..][1..] == [];
    assert fields[..2] == ["device_minor", "gpu_uuid"] && fields[..2][..1] == ["device_minor"]
      && fields[..2][..1][..0] == [];
    assert Missing(InfoOf(g), fields[1..][1..]) == None;
    assert Missing(InfoOf(g), fields[1..]) == None;
    assert Select(InfoOf(g), ["device_minor"]) == map["device_minor" := g.minor];
    assert Select(InfoOf(g), fields[..2]) == map["device_minor" := g.minor, "gpu_uuid" := g.uuid];
  }

  function InfosOf(gpus: seq<Gpu>): (infos: seq<Info>)
    ensures |infos| == |gpus| && forall i :: 0 <= i < |gpus| ==> infos[i] == InfoOf(gpus[i])
  {
    seq(|gpus|, i requires 0 <= i < |gpus| => InfoOf(gpus[i]))
  }

  lemma {:induction false} LinesParse(gpus: seq<Gpu>)
    requires forall i :: 0 <= i < |gpus| ==> CleanGpu(gpus[i])
    ensures ParseLines(Lines(gpus), Split(QUERY, ',')) == Infos(InfosOf(gpus))
    decreases |gpus|
  {
    hide Split, Missing, Select, TrimSpace;
    if gpus != [] {
      var g := gpus[0];
      LinesParse(gpus[1..]);
      assert Lines(gpus)[1..] == Lines(gpus[1..]);
      LineParts(g);
      CleanTrims(g.minor);
      CleanTrims(g.uuid);
      CleanTrims(g.bus);
      QueryFields();
      SelectAll(g);
      assert InfosOf(gpus) == [InfoOf(g)] + InfosOf(gpus[1..]);
    }
  }

  lemma PrintTrims(gpus: seq<Gpu>)
    requires gpus != [] && forall i :: 0 <= i < |gpus| ==> CleanGpu(gpus[i])
    ensures TrimSpace(Print(gpus)) == Join(Lines(gpus), '\n') && TrimSpace(Print(gpus)) != ""
  {
    hide *;
    PrintJoins(gpus);
    TrimEdges(Join(Lines(gpus), '\n'));
  }

  lemma LinesSplit(gpus: seq<Gpu>)
    requires gpus != [] && forall i :: 0 <= i < |gpus| ==> CleanGpu(gpus[i])
    ensures Split(Join(Lines(gpus), '\n'), '\n') == Lines(gpus)
  {
    hide *;
    forall line | line in Lines(gpus) ensures '\n' !in line {
      var i :| 0 <= i < |gpus| && line == Line(gpus[i]);
      LineEdges(gpus[i]);
    }
    SplitJoined(Lines(gpus), '\n');
  }

  /**
   Reading back what the script prints gives the same GPUs in the same order; so exactly one GPU is read when exactly
   one is listed.
   */
  lemma RoundTrip(gpus: seq<Gpu>)
    requires forall i :: 0 <= i < |gpus| ==> CleanGpu(gpus[i])
    ensures Parse(Print(gpus), QUERY) == Infos(InfosOf(gpus))
  {
    if gpus == [] {
      assert TrimSpace(Print(gpus)) == "";
    } else {
      hide Split, IsSpace, ParseLines, TrimSpace, Print, Join, Lines, InfosOf;
      PrintTrims(gpus);
      LinesSplit(gpus);
      LinesParse(gpus);
    }
  }

  /** No two lists of GPUs are read alike. */
  lemma InfosDiffer(gpus: seq<Gpu>, gpus': seq<Gpu>)
    requires InfosOf(gpus) == InfosOf(gpus')
    ensures gpus == gpus'
  {
    forall i | 0 <= i < |gpus| ensures gpus[i] == gpus'[i] {
      var a, b := InfosOf(gpus)[i], InfosOf(gpus')[i];
      assert a["device_minor"] == b["device_minor"] && a["gpu_uuid"] == b["gpu_uuid"]
        && a["pci.bus_id"] == b["pci.bus_id"];
    }
  }

  ghost predicate ThreeParts(line: string) {
    line == "" || |Split(line, ',')| >= 3
  }

  /**
   Any text at all is read, under the operator's own query, exactly when each of its lines is empty or has three parts.
   */
  lemma {:induction false} LinesReadIff(lines: seq<string>)
    ensures ParseLines(lines, Split(QUERY, ',')).Infos? <==> forall i :: 0 <= i < |lines| ==> ThreeParts(lines[i])
    decreases |lines|
  {
    hide Split, Missing, Select, TrimSpace;
    if lines != [] {
      LinesReadIff(lines[1..]);
      assert lines == [lines[0]] + lines[1..];
      var parts := Split(lines[0], ',');
      if |parts| >= 3 {
        QueryFields();
        SelectAll(Gpu(TrimSpace(parts[0]), TrimSpace(parts[1]), TrimSpace(parts[2])));
      }
    }
  }

  /** And a text that is not read is refused for the first line that has fewer. */
  lemma {:induction false} RefusedForFirst(lines: seq<string>, i: nat)
    requires i < |lines| && !ThreeParts(lines[i]) && forall j :: 0 <= j < i ==> ThreeParts(lines[j])
    ensures ParseLines(lines, Split(QUERY, ',')) == Malformed(lines[i])
    decreases |lines|
  {
    hide Split, Missing, Select, TrimSpace;
    if i > 0 {
      var rest := lines[1..];
      assert rest[i - 1] == lines[i] && forall j :: 0 <= j < |rest| ==> rest[j] == lines[j + 1];
      RefusedForFirst(rest, i - 1);
      assert ThreeParts(lines[0]);
      var parts := Split(lines[0], ',');
      if lines[0] != "" {
        QueryFields();
        SelectAll(Gpu(TrimSpace(parts[0]), TrimSpace(parts[1]), TrimSpace(parts[2])));
      }
    }
  }
}
