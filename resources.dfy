/** Resource resolution in `validate`: a sizing template or a custom
    triple becomes cpu, memory in MiB and disks in KiB; `--sdb size[,path]`
    adds a second disk. */
module Resources {
  import opened Wrappers
  import opened Text
  import opened Size

  /** A cpu count as the options hold it: a number from the template table,
      or the text given to --custom. */
  datatype Cpu = CpuCount(count: nat) | CpuText(text: string)

  /** A row of the template table: cpu, memory and disk as written. */
  datatype Row = Row(cpu: nat, mem: string, sda: string)

  const Templates: map<string, Row> := map[
    "small"  := Row(1, "1G", "15G"),
    "medium" := Row(2, "2G", "15G"),
    "large"  := Row(2, "4G", "15G"),
    "xlarge" := Row(2, "8G", "15G")
  ]

  /** Memory in MiB, disks in KiB. */
  datatype ResourceSpec = ResourceSpec(cpu: Cpu, mem: nat, sda: nat, sdb: Option<nat>, sdbPath: Option<string>)

  /** `xs[i]` in Ruby: nil past the end. */
  function Entry(xs: seq<string>, i: nat): (r: Option<string>)
    ensures r.Some? <==> i < |xs|
    ensures r.Some? ==> r.value == xs[i]
  {
    if i < |xs| then Some(xs[i]) else None
  }

  /** parse_size on a value that may be nil (nil[-1, 1] raises). */
  function ParseField(raw: Option<string>, target: Unit, what: string): Result<nat, Error>
  {
    match raw
    case None => Err(MissingField(what))
    case Some(s) => ParseSize(s, target)
  }

  /** The cpu, the raw memory and the raw primary disk, from the template or
      the custom triple; exactly one of the two must be given. */
  function Selection(template: Option<string>, custom: Option<seq<string>>)
    : Result<(Cpu, string, Option<string>), Error>
  {
    if template.None? && custom.None? then Err(TemplateRequired)
    else if template.Some? && custom.Some? then Err(MutuallyExclusive)
    else if template.Some? then
      if template.value in Templates then
        var row := Templates[template.value];
        Ok((CpuCount(row.cpu), row.mem, Some(row.sda)))
      else Err(UnknownTemplate(template.value))
    else
      var c := custom.value;
      if |c| < 2 then Err(MissingField("memory"))
      else Ok((CpuText(c[0]), c[1], Entry(c, 2)))
  }

  /** `sdb_size, *sdb_path = raw_sdb.split(/,/)`: the size in KiB and the
      second field, if any. */
  function SecondDisk(rawSdb: Option<string>): Result<(Option<nat>, Option<string>), Error>
  {
    match rawSdb
    case None => Ok((None, None))
    case Some(raw) =>
      var fs := Fields(raw, ',');
      match ParseField(Entry(fs, 0), K, "sdb")
      case Err(e) => Err(e)
      case Ok(n) => Ok((Some(n), Entry(fs, 1)))
  }

  /** The resource part of validate, failures included, in the order the
      source meets them: selection, memory, primary disk, second disk. */
  function Resolve(template: Option<string>, custom: Option<seq<string>>, rawSdb: Option<string>)
    : Result<ResourceSpec, Error>
  {
    match Selection(template, custom)
    case Err(e) => Err(e)
    case Ok((cpu, rawMem, rawSda)) =>
      match ParseSize(rawMem, M)
      case Err(e) => Err(e)
      case Ok(mem) =>
        match ParseField(rawSda, K, "sda")
        case Err(e) => Err(e)
        case Ok(sda) =>
          match SecondDisk(rawSdb)
          case Err(e) => Err(e)
          case Ok((sdb, path)) => Ok(ResourceSpec(cpu, mem, sda, sdb, path))
  }

  /** The options hash as validate reads and writes it. */
  class Options {
    // read by validate
    var template: Option<string>
    var custom: Option<seq<string>>
    var rawSdb: Option<string>
    var network: map<string, string>   // subnet -> portgroup name
    var subnet: string
    // written by validate
    var cpu: Option<Cpu>
    var mem: Option<nat>
    var sda: Option<nat>
    var sdb: Option<nat>
    var sdbPath: Option<string>

    constructor (template: Option<string>, custom: Option<seq<string>>, rawSdb: Option<string>,
                 network: map<string, string>, subnet: string)
      ensures this.template == template && this.custom == custom && this.rawSdb == rawSdb
      ensures this.network == network && this.subnet == subnet
      ensures cpu.None? && mem.None? && sda.None? && sdb.None? && sdbPath.None?
    {
      this.template, this.custom, this.rawSdb := template, custom, rawSdb;
      this.network, this.subnet := network, subnet;
      cpu, mem, sda, sdb, sdbPath := None, None, None, None, None;
    }

    /** The resources validate leaves in the options, once it has set them. */
    function Resources(): Option<ResourceSpec>
      reads this
    {
      if cpu.Some? && mem.Some? && sda.Some?
      then Some(ResourceSpec(cpu.value, mem.value, sda.value, sdb, sdbPath))
      else None
    }

    /** validate: returns the abort it ends with, if any. On success the
        resolved resources are in the options, and the subnet is in the map. */
    method Validate() returns (abort: Option<Error>)
      modifies this
      ensures template == old(template) && custom == old(custom) && rawSdb == old(rawSdb)
      ensures network == old(network) && subnet == old(subnet)
      ensures abort == (match Resolve(template, custom, rawSdb)
                        case Err(e) => Some(e)
                        case Ok(_) => if subnet in network then None else Some(InvalidSubnet(subnet)))
      ensures Resolve(template, custom, rawSdb).Ok? ==>
        var r := Resolve(template, custom, rawSdb).value;
        cpu == Some(r.cpu) && mem == Some(r.mem) && sda == Some(r.sda) &&
        (rawSdb.Some? ==> sdb == r.sdb && sdbPath == r.sdbPath) &&
        (rawSdb.None? ==> sdb == old(sdb) && sdbPath == old(sdbPath))
      ensures Resolve(template, custom, rawSdb).Ok? && old(sdb).None? && old(sdbPath).None? ==>
        Resources() == Some(Resolve(template, custom, rawSdb).value)
    {
      if template.None? && custom.None? {
        return Some(TemplateRequired);
      }
      if template.Some? && custom.Some? {
        return Some(MutuallyExclusive);
      }
      var rawMem: string, rawSda: Option<string>;
      if template.Some? {
        if template.value !in Templates {
          return Some(UnknownTemplate(template.value));
        }
        var row := Templates[template.value];
        cpu, rawMem, rawSda := Some(CpuCount(row.cpu)), row.mem, Some(row.sda);
      } else {
        var c := custom.value;
        if |c| < 2 {
          cpu := if |c| > 0 then Some(CpuText(c[0])) else None;
          return Some(MissingField("memory"));
        }
        cpu, rawMem, rawSda := Some(CpuText(c[0])), c[1], Entry(c, 2);
      }
      var m := ParseSize(rawMem, M);
      if m.Err? {
        return Some(m.error);
      }
      mem := Some(m.value);
      var d := ParseField(rawSda, K, "sda");
      if d.Err? {
        return Some(d.error);
      }
      sda := Some(d.value);
      if rawSdb.Some? {
        var fs := Fields(rawSdb.value, ',');
        var s := ParseField(Entry(fs, 0), K, "sdb");
        if s.Err? {
          return Some(s.error);
        }
        sdb, sdbPath := Some(s.value), Entry(fs, 1);
      }
      if subnet !in network {
        return Some(InvalidSubnet(subnet));
      }
      return None;
    }
  }

  // ---------------------------------------------------------------------
  // Properties

  /** Giving both or neither of template and custom aborts; success means
      exactly one of them was given. */
  lemma ExactlyOneSelection(template: Option<string>, custom: Option<seq<string>>, rawSdb: Option<string>)
    ensures template.None? && custom.None? ==> Resolve(template, custom, rawSdb) == Err(TemplateRequired)
    ensures template.Some? && custom.Some? ==> Resolve(template, custom, rawSdb) == Err(MutuallyExclusive)
    ensures Resolve(template, custom, rawSdb).Ok? ==> template.Some? != custom.Some?
  {
  }

  /** Every row of the template table, resolved: memory in MiB and the
      15G disk in KiB. */
  lemma TemplateTable()
    ensures Resolve(Some("small"), None, None) == Ok(ResourceSpec(CpuCount(1), 1024, 15728640, None, None))
    ensures Resolve(Some("medium"), None, None) == Ok(ResourceSpec(CpuCount(2), 2048, 15728640, None, None))
    ensures Resolve(Some("large"), None, None) == Ok(ResourceSpec(CpuCount(2), 4096, 15728640, None, None))
    ensures Resolve(Some("xlarge"), None, None) == Ok(ResourceSpec(CpuCount(2), 8192, 15728640, None, None))
  {
    assert [DigitChar(1), 'G'] == "1G" && [DigitChar(2), 'G'] == "2G";
    assert [DigitChar(4), 'G'] == "4G" && [DigitChar(8), 'G'] == "8G";
    TemplateRow("small", 1, 1);
    TemplateRow("medium", 2, 2);
    TemplateRow("large", 2, 4);
    TemplateRow("xlarge", 2, 8);
  }

  /** A row with g gibibytes of memory and the 15G disk. */
  lemma TemplateRow(name: string, cpu: nat, g: nat)
    requires 1 <= g <= 9
    requires name in Templates && Templates[name] == Row(cpu, [DigitChar(g), 'G'], "15G")
    ensures Resolve(Some(name), None, None) == Ok(ResourceSpec(CpuCount(cpu), g * 1024, 15728640, None, None))
  {
    FifteenGibInKib();
    GibInMib(g);
  }

  lemma GibInMib(n: nat)
    requires 1 <= n <= 9
    ensures ParseSize([DigitChar(n), 'G'], M) == Ok(n * 1024)
  {
    assert Decimal(n) == [DigitChar(n)];
    WrittenSizeReadsBack(n, G, M);
  }

  /** A template name outside the table aborts. */
  lemma UnknownTemplateFails(name: string, rawSdb: Option<string>)
    requires name !in Templates
    ensures Resolve(Some(name), None, rawSdb) == Err(UnknownTemplate(name))
  {
  }

  /** A custom triple written as numbers with units resolves to the cpu text,
      the memory in MiB and the disk in KiB. */
  lemma CustomTriple(cpu: string, m: nat, mu: Unit, d: nat, du: Unit)
    ensures Resolve(None, Some([cpu, Decimal(m) + [Symbol(mu)], Decimal(d) + [Symbol(du)]]), None) ==
      Ok(ResourceSpec(CpuText(cpu),
                      if mu == M then m else Convert(m, mu, M),
                      if du == K then d else Convert(d, du, K),
                      None, None))
  {
    WrittenSizeReadsBack(m, mu, M);
    WrittenSizeReadsBack(d, du, K);
  }

  /** A custom list without a memory entry aborts, as nil reaches parse_size. */
  lemma CustomTooShort(c: seq<string>, rawSdb: Option<string>)
    requires |c| < 2
    ensures Resolve(None, Some(c), rawSdb) == Err(MissingField("memory"))
  {
  }

  /** `--sdb <n><unit>,<path>`: the second disk in KiB and the mount path. */
  lemma SdbWithPath(n: nat, u: Unit, path: string)
    requires path != [] && ',' !in path
    ensures SecondDisk(Some(Decimal(n) + [Symbol(u)] + [','] + path)) ==
      Ok((Some(if u == K then n else Convert(n, u, K)), Some(path)))
  {
    var size := Decimal(n) + [Symbol(u)];
    assert ',' !in size by {
      assert forall i :: 0 <= i < |size| - 1 ==> IsDigit(size[i]);
    }
    var fs := [size, path];
    assert Join(fs, ',') == size + [','] + path by {
      assert fs[1..] == [path];
    }
    SplitAllJoin(fs, ',');
    assert Fields(size + [','] + path, ',') == fs;
    WrittenSizeReadsBack(n, u, K);
  }

  /** `--sdb <n><unit>` without a path: the path is nil. */
  lemma SdbWithoutPath(n: nat, u: Unit)
    ensures SecondDisk(Some(Decimal(n) + [Symbol(u)])) ==
      Ok((Some(if u == K then n else Convert(n, u, K)), None))
  {
    var size := Decimal(n) + [Symbol(u)];
    assert ',' !in size by {
      assert forall i :: 0 <= i < |size| - 1 ==> IsDigit(size[i]);
    }
    SplitAllSingle(size, ',');
    assert Fields(size, ',') == [size];
    WrittenSizeReadsBack(n, u, K);
  }

  /** A resolved run carries the second disk exactly when --sdb was given. */
  lemma SdbPresence(template: Option<string>, custom: Option<seq<string>>, rawSdb: Option<string>)
    requires Resolve(template, custom, rawSdb).Ok?
    ensures Resolve(template, custom, rawSdb).value.sdb.Some? <==> rawSdb.Some?
    ensures rawSdb.None? ==> Resolve(template, custom, rawSdb).value.sdbPath.None?
  {
  }
}
