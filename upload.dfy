/** The publishing tool (upload.js): command-line settings, the tag set chosen by
    file extension, lazy funding against the uploader's price and balance, the
    upload pipeline and the bounded upload history. The uploader SDK and the
    filesystem calls are a `Gateway` object whose answers are arbitrary and
    recorded in order; the history file is a `Journal` object. */
module Upload {
  import opened Common
  import opened Tags

  /** Where an uploaded transaction can be fetched (upload.js:94). */
  const GatewayLink: string := "https://gateway.irys.xyz/"

  /** The number of entries the history keeps (upload.js:132). */
  const HistoryLimit: nat := 100

  newtype byte = x: int | 0 <= x < 256

  // ---------------------------------------------------------------------------
  // Command-line settings

  /** The settings record; `kind` is the `--type` value. */
  datatype Config = Config(file: Option<string>, kind: Option<string>, version: string, tag: string)

  const Defaults: Config := Config(None, None, "0.1.0", "web4-test")

  datatype Flag = TypeFlag | VersionFlag | TagFlag

  function Prefix(f: Flag): (p: string)
    ensures |p| > 2 && p[..2] == "--" && p[|p| - 1] == '='
  {
    match f
    case TypeFlag => "--type="
    case VersionFlag => "--version="
    case TagFlag => "--tag="
  }

  /** `arg.split("=")[1]` for an argument that starts with `Prefix(f)`. */
  function FlagValue(arg: string, f: Flag): string
    requires StartsWith(arg, Prefix(f))
  {
    assert arg[|Prefix(f)| - 1] == '=';
    SecondField(arg)
  }

  /** An argument that does not start with `--` names the file. */
  predicate IsPlain(arg: string)
  {
    !StartsWith(arg, "--")
  }

  /** One step of the argument loop. */
  function ApplyArg(c: Config, arg: string): Config
  {
    if IsPlain(arg) then c.(file := Some(arg))
    else if StartsWith(arg, Prefix(TypeFlag)) then c.(kind := Some(FlagValue(arg, TypeFlag)))
    else if StartsWith(arg, Prefix(VersionFlag)) then c.(version := FlagValue(arg, VersionFlag))
    else if StartsWith(arg, Prefix(TagFlag)) then c.(tag := FlagValue(arg, TagFlag))
    else c
  }

  /** The settings after reading all of `argv` from left to right. */
  function Settings(argv: seq<string>): Config
  {
    if argv == [] then Defaults else ApplyArg(Settings(argv[..|argv| - 1]), argv[|argv| - 1])
  }

  /** `parseArgs`: loops over `process.argv.slice(2)` and updates the record. */
  method ParseArgs(argv: seq<string>) returns (c: Config)
    ensures c == Settings(argv)
  {
    c := Defaults;
    var i := 0;
    while i < |argv|
      invariant 0 <= i <= |argv|
      invariant c == Settings(argv[..i])
    {
      assert argv[..i + 1][..i] == argv[..i];
      c := ApplyArg(c, argv[i]);
      i := i + 1;
    }
    assert argv[..|argv|] == argv;
  }

  /** `i` is the last argument that does not start with `--`. */
  predicate LastPlain(argv: seq<string>, i: int)
  {
    0 <= i < |argv| && IsPlain(argv[i]) && forall j :: i < j < |argv| ==> !IsPlain(argv[j])
  }

  /** The file is the last argument not starting with `--`; with none there is no file. */
  lemma FileIsLastPlainArgument(argv: seq<string>)
    ensures (forall i :: 0 <= i < |argv| ==> !IsPlain(argv[i])) ==> Settings(argv).file == None
    ensures forall i :: LastPlain(argv, i) ==> Settings(argv).file == Some(argv[i])
  {
    if forall i :: 0 <= i < |argv| ==> !IsPlain(argv[i]) {
      FileNeverSet(argv);
    }
    forall i | LastPlain(argv, i) ensures Settings(argv).file == Some(argv[i]) {
      FileLast(argv, i);
    }
  }

  /** One step sets the file exactly for a plain argument. */
  lemma ApplyArgFile(c: Config, arg: string)
    ensures ApplyArg(c, arg).file == if IsPlain(arg) then Some(arg) else c.file
  {
  }

  lemma {:induction false} FileNeverSet(argv: seq<string>)
    requires forall i :: 0 <= i < |argv| ==> !IsPlain(argv[i])
    ensures Settings(argv).file == None
  {
    if argv != [] {
      var n := |argv| - 1;
      var init := argv[..n];
      ApplyArgFile(Settings(init), argv[n]);
      forall i | 0 <= i < |init| ensures !IsPlain(init[i]) {
        assert init[i] == argv[i];
      }
      FileNeverSet(init);
    }
  }

  lemma {:induction false} FileLast(argv: seq<string>, i: int)
    requires LastPlain(argv, i)
    ensures Settings(argv).file == Some(argv[i])
  {
    var n := |argv| - 1;
    var init := argv[..n];
    ApplyArgFile(Settings(init), argv[n]);
    if i < n {
      assert !IsPlain(argv[n]);
      forall j | i < j < |init| ensures !IsPlain(init[j]) {
        assert init[j] == argv[j];
      }
      assert init[i] == argv[i];
      FileLast(init, i);
    }
  }

  function Get(c: Config, f: Flag): Option<string>
  {
    match f
    case TypeFlag => c.kind
    case VersionFlag => Some(c.version)
    case TagFlag => Some(c.tag)
  }

  predicate LastWith(argv: seq<string>, i: int, p: string)
  {
    0 <= i < |argv| && StartsWith(argv[i], p) && forall j :: i < j < |argv| ==> !StartsWith(argv[j], p)
  }

  lemma ApplyArgSetting(c: Config, arg: string, f: Flag)
    ensures StartsWith(arg, Prefix(f)) ==> Get(ApplyArg(c, arg), f) == Some(FlagValue(arg, f))
    ensures !StartsWith(arg, Prefix(f)) ==> Get(ApplyArg(c, arg), f) == Get(c, f)
  {
    if StartsWith(arg, Prefix(f)) {
      assert arg[..2] == Prefix(f)[..2];
      assert arg[2] == Prefix(f)[2];
    }
  }

  lemma {:induction false} FlagNeverSet(argv: seq<string>, f: Flag)
    requires forall i :: 0 <= i < |argv| ==> !StartsWith(argv[i], Prefix(f))
    ensures Get(Settings(argv), f) == Get(Defaults, f)
  {
    if argv != [] {
      var n := |argv| - 1;
      var init := argv[..n];
      assert forall i :: 0 <= i < n ==> init[i] == argv[i];
      ApplyArgSetting(Settings(init), argv[n], f);
      FlagNeverSet(init, f);
    }
  }

  lemma {:induction false} FlagLast(argv: seq<string>, f: Flag, i: int)
    requires LastWith(argv, i, Prefix(f))
    ensures Get(Settings(argv), f) == Some(FlagValue(argv[i], f))
  {
    var n := |argv| - 1;
    var init := argv[..n];
    ApplyArgSetting(Settings(init), argv[n], f);
    if i != n {
      assert init[i] == argv[i];
      forall j | i < j < |init| ensures !StartsWith(init[j], Prefix(f)) {
        assert init[j] == argv[j];
      }
      FlagLast(init, f, i);
    }
  }

  /** A flag's last occurrence wins; a flag that never occurs keeps its default. */
  lemma LastFlagWins(argv: seq<string>, f: Flag)
    ensures (forall i :: 0 <= i < |argv| ==> !StartsWith(argv[i], Prefix(f))) ==>
      Get(Settings(argv), f) == Get(Defaults, f)
    ensures forall i :: LastWith(argv, i, Prefix(f)) ==> Get(Settings(argv), f) == Some(FlagValue(argv[i], f))
  {
    if forall i :: 0 <= i < |argv| ==> !StartsWith(argv[i], Prefix(f)) {
      FlagNeverSet(argv, f);
    }
    forall i | LastWith(argv, i, Prefix(f))
      ensures Get(Settings(argv), f) == Some(FlagValue(argv[i], f))
    {
      FlagLast(argv, f, i);
    }
  }

  // ---------------------------------------------------------------------------
  // Paths (POSIX `path.basename` and `path.extname`)

  /** `p` without its trailing slashes. */
  function StripTrailingSlashes(p: string): (r: string)
    ensures r <= p
    ensures r == [] || r[|r| - 1] != '/'
    ensures forall i :: |r| <= i < |p| ==> p[i] == '/'
  {
    if p != [] && p[|p| - 1] == '/' then StripTrailingSlashes(p[..|p| - 1]) else p
  }

  /** The text after the last '/'. */
  function AfterLastSlash(p: string): (r: string)
    ensures '/' !in r
    ensures |r| <= |p| && r == p[|p| - |r|..]
    ensures |r| == |p| || p[|p| - |r| - 1] == '/'
  {
    if p == [] || p[|p| - 1] == '/' then [] else AfterLastSlash(p[..|p| - 1]) + [p[|p| - 1]]
  }

  /** `path.basename(p)`: the last path component, trailing slashes ignored. */
  function BaseName(p: string): (r: string)
    ensures '/' !in r
  {
    AfterLastSlash(StripTrailingSlashes(p))
  }

  /** The base name is the end of `p`, trailing slashes dropped, that follows its
      last '/' (or all of it when there is none). */
  lemma BaseNameIsLastComponent(p: string)
    ensures var q := StripTrailingSlashes(p); var r := BaseName(p);
      |r| <= |q| && r == q[|q| - |r|..] && (|r| == |q| || q[|q| - |r| - 1] == '/')
  {
    var q := StripTrailingSlashes(p);
    assert BaseName(p) == AfterLastSlash(q);
  }

  /** The position of the last '.' in `s`. */
  function LastDot(s: string): (r: Option<nat>)
    ensures r.Some? ==> r.value < |s| && s[r.value] == '.' && '.' !in s[r.value + 1..]
    ensures r.None? ==> '.' !in s
  {
    if s == [] then None
    else if s[|s| - 1] == '.' then Some(|s| - 1)
    else
      var r := LastDot(s[..|s| - 1]);
      assert s == s[..|s| - 1] + [s[|s| - 1]];
      r
  }

  /** The extension of a base name: from its last '.' to its end; empty when
      there is no dot, when the dot starts the name, and for the name `..`. */
  function Extension(b: string): (r: string)
    ensures r == [] || (r[0] == '.' && '.' !in r[1..])
    ensures |r| <= |b| && r == b[|b| - |r|..]
  {
    match LastDot(b)
    case None => ""
    case Some(i) => if i == 0 || b == ".." then "" else b[i..]
  }

  /** The extension is not empty exactly when the name has a last dot that is not
      its first character and the name is not `..`; it then runs from that dot to
      the end. So a dot-file such as `.json` has no extension. */
  lemma ExtensionAtLastDot(b: string)
    ensures Extension(b) != [] <==> LastDot(b).Some? && LastDot(b).value > 0 && b != ".."
    ensures Extension(b) != [] ==> Extension(b) == b[LastDot(b).value..]
  {
  }

  /** A dot-file such as `.json` or `.html` has no extension. */
  lemma DotFileHasNoExtension(e: string)
    requires '.' !in e
    ensures Extension(['.'] + e) == ""
  {
    LastDotOf([], e);
    assert [] + ['.'] + e == ['.'] + e;
  }

  /** `path.extname(p)`: the extension of the base name. */
  function ExtName(p: string): string
  {
    Extension(BaseName(p))
  }

  /** The extension is empty or a dot with no dot after it. It is the base
      name's text from its last dot, and it is empty exactly when the base name
      has no dot, has its last dot in front, or is `..`. */
  lemma ExtNameAtLastDot(p: string)
    ensures ExtName(p) == [] || (ExtName(p)[0] == '.' && '.' !in ExtName(p)[1..])
    ensures var b := BaseName(p);
      (ExtName(p) != [] <==> LastDot(b).Some? && LastDot(b).value > 0 && b != "..") &&
      (ExtName(p) != [] ==> ExtName(p) == b[LastDot(b).value..])
  {
    var b := BaseName(p);
    assert ExtName(p) == Extension(b);
    ExtensionAtLastDot(b);
  }

  /** After a '/' at `k - 1` (or from the start) with no '/' beyond it, the
      last component is everything from `k` on. */
  lemma {:induction false} AfterLastSlashFrom(p: string, k: nat)
    requires k <= |p| && (k == 0 || p[k - 1] == '/')
    requires forall i :: k <= i < |p| ==> p[i] != '/'
    ensures AfterLastSlash(p) == p[k..]
    decreases |p|
  {
    if k < |p| {
      var q := p[..|p| - 1];
      assert p[|p| - 1] != '/';
      AfterLastSlashFrom(q, k);
      assert p[k..] == q[k..] + [p[|p| - 1]];
    }
  }

  /** Behind a directory prefix ending in '/', the base name is the rest. */
  lemma AfterLastSlashOf(pre: string, name: string)
    requires pre == [] || pre[|pre| - 1] == '/'
    requires '/' !in name
    ensures AfterLastSlash(pre + name) == name
  {
    var p := pre + name;
    forall i | |pre| <= i < |p| ensures p[i] != '/' {
      assert p[i] == name[i - |pre|];
    }
    AfterLastSlashFrom(p, |pre|);
    assert p[|pre|..] == name;
  }

  lemma {:induction false} LastDotOf(stem: string, e: string)
    requires '.' !in e
    ensures LastDot(stem + ['.'] + e) == Some(|stem|)
  {
    var p := stem + ['.'] + e;
    if e != [] {
      var n := |e| - 1;
      assert p[..|p| - 1] == stem + ['.'] + e[..n];
      LastDotOf(stem, e[..n]);
    }
  }

  /** Under a directory prefix (empty, or ending in '/'), a name without '/'
      is the base name. */
  lemma BaseNameOf(pre: string, name: string)
    requires pre == [] || pre[|pre| - 1] == '/'
    requires name != [] && '/' !in name
    ensures BaseName(pre + name) == name
  {
    var p := pre + name;
    assert p[|p| - 1] == name[|name| - 1];
    assert StripTrailingSlashes(p) == p;
    AfterLastSlashOf(pre, name);
  }

  lemma NoSlashAround(stem: string, e: string)
    requires '/' !in stem && '/' !in e
    ensures '/' !in stem + ['.'] + e
  {
    var name := stem + ['.'] + e;
    forall i | 0 <= i < |name| ensures name[i] != '/' {
      if i < |stem| {
        assert name[i] == stem[i];
      } else if i > |stem| {
        assert name[i] == e[i - |stem| - 1];
      }
    }
  }

  /** A file `stem.e` under a directory prefix has extension `.e`, as long as
      the stem is not empty and the name is not `..`. */
  lemma ExtNameOf(pre: string, stem: string, e: string)
    requires pre == [] || pre[|pre| - 1] == '/'
    requires stem != [] && '/' !in stem && '/' !in e && '.' !in e
    requires stem + ['.'] + e != ".."
    ensures ExtName(pre + (stem + ['.'] + e)) == ['.'] + e
  {
    NoSlashAround(stem, e);
    BaseNameOf(pre, stem + ['.'] + e);
    ExtensionOf(stem, e);
  }

  /** The name `stem.e` has extension `.e`. */
  lemma ExtensionOf(stem: string, e: string)
    requires stem != [] && '.' !in e
    requires stem + ['.'] + e != ".."
    ensures Extension(stem + ['.'] + e) == ['.'] + e
  {
    var name := stem + ['.'] + e;
    LastDotOf(stem, e);
    assert name[|stem|..] == ['.'] + e;
  }

  // ---------------------------------------------------------------------------
  // The tag set chosen by extension

  datatype Rejection = Usage | TypeMissing | Unsupported(ext: string)

  /** What `main` decides before any network call: the file and its tags, or an exit with status 1. */
  datatype Plan = Publish(file: string, tags: seq<Tag>) | Reject(reason: Rejection)

  predicate IsDocument(ext: string)
  {
    ext == ".html" || ext == ".htm"
  }

  /** The extension test and tag construction of `main`. */
  function PlanFor(c: Config): (r: Plan)
    ensures r.Publish? <==>
      Truthy(c.file) && (IsDocument(ExtName(c.file.value)) || (ExtName(c.file.value) == ".json" && Truthy(c.kind)))
    ensures r.Publish? ==>
      (r.file == c.file.value && |r.tags| == 3
       && r.tags[0].name == "Content-Type" && r.tags[2] == Tag("Version", c.version))
  {
    if !Truthy(c.file) then Reject(Usage)
    else
      var ext := ExtName(c.file.value);
      if IsDocument(ext) then
        Publish(c.file.value, [Tag("Content-Type", "text/html"), Tag("App-Name", "Web4-CLI"), Tag("Version", c.version)])
      else if ext == ".json" then
        if !Truthy(c.kind) then Reject(TypeMissing)
        else Publish(c.file.value, [Tag("Content-Type", "application/json"), Tag(c.tag, c.kind.value), Tag("Version", c.version)])
      else Reject(Unsupported(ext))
  }

  /** Hypertext is tagged with the application name, structured data with the
      discovery tag and its non-empty value; a JSON file without a type and any
      other extension are rejected. */
  lemma TagSetRules(c: Config)
    requires Truthy(c.file)
    ensures var ext := ExtName(c.file.value);
      && (IsDocument(ext) ==>
            (PlanFor(c).Publish? &&
             PlanFor(c).tags == [Tag("Content-Type", "text/html"), Tag("App-Name", "Web4-CLI"), Tag("Version", c.version)]))
      && (ext == ".json" && Truthy(c.kind) ==>
            (PlanFor(c).Publish? &&
             PlanFor(c).tags[0] == Tag("Content-Type", "application/json") &&
             PlanFor(c).tags[1] == Tag(c.tag, c.kind.value) && c.kind.value != ""))
      && (ext == ".json" && !Truthy(c.kind) ==> PlanFor(c) == Reject(TypeMissing))
      && (!IsDocument(ext) && ext != ".json" ==> PlanFor(c) == Reject(Unsupported(ext)))
  {
  }

  // ---------------------------------------------------------------------------
  // The gateway: filesystem and uploader calls

  /** A call made through the gateway, with the answer it got. */
  datatype Call =
    | ExistsCall(path: string, found: bool)
    | ReadCall(path: string, content: Result<seq<byte>>)
    | PriceCall(size: nat, price: Result<int>)
    | BalanceCall(balance: Result<int>)
    | FundCall(amount: int, tx: Result<string>)
    | SubmitCall(txId: string, done: Result<()>)
    | UploadCall(data: seq<byte>, tags: seq<Tag>, receipt: Result<string>)

  /** The uploader SDK and the filesystem. Every answer is arbitrary; the calls are
      recorded in the order they are made. */
  class Gateway {
    ghost var trace: seq<Call>

    constructor ()
      ensures trace == []
    {
      trace := [];
    }

    /** `fs.existsSync(path)` */
    method Exists(path: string) returns (found: bool)
      modifies this
      ensures trace == old(trace) + [ExistsCall(path, found)]
    {
      found :| true;
      trace := trace + [ExistsCall(path, found)];
    }

    /** `fs.readFileSync(path)` */
    method Read(path: string) returns (data: Result<seq<byte>>)
      modifies this
      ensures trace == old(trace) + [ReadCall(path, data)]
    {
      data :| true;
      trace := trace + [ReadCall(path, data)];
    }

    /** `irys.getPrice(size)`, in atomic units */
    method GetPrice(size: nat) returns (price: Result<int>)
      modifies this
      ensures trace == old(trace) + [PriceCall(size, price)]
    {
      price :| true;
      trace := trace + [PriceCall(size, price)];
    }

    /** `irys.getBalance()`, in atomic units */
    method GetBalance() returns (balance: Result<int>)
      modifies this
      ensures trace == old(trace) + [BalanceCall(balance)]
    {
      balance :| true;
      trace := trace + [BalanceCall(balance)];
    }

    /** `irys.fund(amount)`: the id of the funding transaction it creates */
    method Fund(amount: int) returns (tx: Result<string>)
      modifies this
      ensures trace == old(trace) + [FundCall(amount, tx)]
    {
      tx :| true;
      trace := trace + [FundCall(amount, tx)];
    }

    /** `irys.funder.submitFundTransaction(txId)` */
    method SubmitFundTransaction(txId: string) returns (done: Result<()>)
      modifies this
      ensures trace == old(trace) + [SubmitCall(txId, done)]
    {
      done :| true;
      trace := trace + [SubmitCall(txId, done)];
    }

    /** `irys.upload(buffer, { tags })`: the id of the published transaction */
    method Upload(data: seq<byte>, tags: seq<Tag>) returns (receipt: Result<string>)
      modifies this
      ensures trace == old(trace) + [UploadCall(data, tags, receipt)]
    {
      receipt :| true;
      trace := trace + [UploadCall(data, tags, receipt)];
    }
  }

  // ---------------------------------------------------------------------------
  // Lazy funding

  /** Reads the funding protocol off the head of `t`: whether it succeeded and how
      many calls it made, or None when `t` does not start with such a run. The
      protocol: price, balance, and only when the balance is below the price a
      top-up of exactly the price followed by the submission of that top-up. */
  function Funding(size: nat, t: seq<Call>): (r: Option<(bool, nat)>)
    ensures r.Some? ==> 1 <= r.value.1 <= |t| && r.value.1 <= 4
    ensures r.Some? && r.value.0 ==> r.value.1 == 2 || r.value.1 == 4
  {
    if |t| < 1 || !t[0].PriceCall? || t[0].size != size then None
    else if t[0].price.Err? then Some((false, 1))
    else if |t| < 2 || !t[1].BalanceCall? then None
    else if t[1].balance.Err? then Some((false, 2))
    else if t[1].balance.value >= t[0].price.value then Some((true, 2))
    else if |t| < 3 || !t[2].FundCall? || t[2].amount != t[0].price.value then None
    else if t[2].tx.Err? then Some((false, 3))
    else if |t| < 4 || !t[3].SubmitCall? || t[3].txId != t[2].tx.value then None
    else Some((t[3].done.Ok?, 4))
  }

  /** `lazyFund`: any error from the gateway turns into `false`. */
  method LazyFund(g: Gateway, size: nat) returns (ok: bool)
    modifies g
    ensures old(g.trace) <= g.trace
    ensures Funding(size, g.trace[|old(g.trace)|..]) == Some((ok, |g.trace| - |old(g.trace)|))
  {
    ghost var before := g.trace;
    var price := g.GetPrice(size);
    if price.Err? {
      assert g.trace[|before|..] == [PriceCall(size, price)];
      return false;
    }
    var balance := g.GetBalance();
    if balance.Err? {
      assert g.trace[|before|..] == [PriceCall(size, price), BalanceCall(balance)];
      return false;
    }
    if balance.value < price.value {
      var fundTx := g.Fund(price.value);
      if fundTx.Err? {
        assert g.trace[|before|..] == [PriceCall(size, price), BalanceCall(balance), FundCall(price.value, fundTx)];
        return false;
      }
      var done := g.SubmitFundTransaction(fundTx.value);
      assert g.trace[|before|..] ==
        [PriceCall(size, price), BalanceCall(balance), FundCall(price.value, fundTx), SubmitCall(fundTx.value, done)];
      if done.Err? {
        return false;
      }
    } else {
      assert g.trace[|before|..] == [PriceCall(size, price), BalanceCall(balance)];
    }
    return true;
  }

  /** A balance that covers the price is never topped up. */
  lemma CoveredBalanceNotFunded(size: nat, t: seq<Call>)
    requires Funding(size, t).Some?
    requires t[0].price.Ok? && t[1].BalanceCall? && t[1].balance.Ok?
    requires t[1].balance.value >= t[0].price.value
    ensures Funding(size, t) == Some((true, 2))
    ensures forall i :: 0 <= i < 2 ==> !t[i].FundCall? && !t[i].SubmitCall?
  {
  }

  /** A two-call success is exactly the case of a balance that covers the price. */
  lemma TwoCallSuccessIffCovered(size: nat, t: seq<Call>)
    requires Funding(size, t).Some?
    ensures Funding(size, t) == Some((true, 2)) <==>
      t[0].price.Ok? && t[1].BalanceCall? && t[1].balance.Ok? && t[1].balance.value >= t[0].price.value
  {
  }

  /** On a shortfall the whole price is topped up, and a top-up that went
      through is followed by the submission of its own transaction. */
  lemma ShortfallIsToppedUp(size: nat, t: seq<Call>)
    requires Funding(size, t).Some? && t[0].price.Ok?
    requires t[1].BalanceCall? && t[1].balance.Ok? && t[1].balance.value < t[0].price.value
    ensures Funding(size, t).value.1 >= 3 && t[2] == FundCall(t[0].price.value, t[2].tx)
    ensures t[2].tx.Ok? ==> Funding(size, t).value.1 == 4 && t[3].SubmitCall? && t[3].txId == t[2].tx.value
  {
  }

  /** A top-up happens only on a shortfall, is for exactly the price (not the
      difference), and what is submitted is that top-up's transaction. */
  lemma TopUpIsThePrice(size: nat, t: seq<Call>, i: nat)
    requires Funding(size, t).Some? && i < Funding(size, t).value.1
    ensures t[i].FundCall? ==>
      i == 2 && t[i].amount == t[0].price.value && t[1].balance.value < t[i].amount
    ensures t[i].SubmitCall? ==> i == 3 && t[2].FundCall? && t[2].tx == Ok(t[i].txId)
  {
  }

  /** Did this call throw? */
  predicate Throws(c: Call)
  {
    match c
    case ExistsCall(_, _) => false
    case ReadCall(_, d) => d.Err?
    case PriceCall(_, p) => p.Err?
    case BalanceCall(b) => b.Err?
    case FundCall(_, x) => x.Err?
    case SubmitCall(_, d) => d.Err?
    case UploadCall(_, _, x) => x.Err?
  }

  /** Funding succeeds exactly when none of its calls threw. */
  lemma FundingOkIffNothingThrown(size: nat, t: seq<Call>)
    requires Funding(size, t).Some?
    ensures Funding(size, t).value.0 <==> forall i :: 0 <= i < Funding(size, t).value.1 ==> !Throws(t[i])
  {
  }

  // ---------------------------------------------------------------------------
  // The upload history

  /** One line of the history: when, which file, the transaction id and link, the
      size in bytes, and the tags. */
  datatype Entry = Entry(timestamp: string, file: string, txid: string, url: string, size: nat, tags: seq<Tag>)

  /** What the history file holds: nothing, text that does not parse, a JSON array,
      or some other JSON value. */
  datatype Stored = Missing | Corrupt | List(entries: seq<Entry>) | NotAList

  /** The history as read before an insertion: a missing or unreadable file is an
      empty history; a value that is not an array cannot be extended (its
      `unshift` throws). */
  function Loaded(s: Stored): Option<seq<Entry>>
  {
    match s
    case Missing => Some([])
    case Corrupt => Some([])
    case List(es) => Some(es)
    case NotAList => None
  }

  function Min(a: nat, b: nat): nat
  {
    if a < b then a else b
  }

  /** The history after `unshift(r)` and the cut to the limit. */
  function Prepended(r: Entry, h: seq<Entry>): (n: seq<Entry>)
    ensures |n| == Min(|h| + 1, HistoryLimit)
    ensures n[0] == r
    ensures n[1..] == h[..|n| - 1]
  {
    var all := [r] + h;
    assert all[1..] == h;
    if |all| > HistoryLimit then all[..HistoryLimit] else all
  }

  /** The history file. */
  class Journal {
    var stored: Stored

    constructor (s: Stored)
      ensures stored == s
    {
      stored := s;
    }

    /** `saveUploadHistory(record)`: reads the file, prepends the record, keeps the
        first 100 entries and writes the file back. */
    method SaveUploadHistory(record: Entry) returns (ok: bool)
      modifies this
      ensures ok <==> Loaded(old(stored)).Some?
      ensures ok ==> stored == List(Prepended(record, Loaded(old(stored)).value))
      ensures !ok ==> stored == old(stored)
    {
      var history: seq<Entry> := [];
      match stored {
        case Missing =>
        case Corrupt =>
        case List(es) =>
          history := es;
        case NotAList =>
          return false;
      }
      history := [record] + history;
      if |history| > HistoryLimit {
        history := history[..HistoryLimit];
      }
      stored := List(history);
      return true;
    }
  }

  function Reversed(s: seq<Entry>): (r: seq<Entry>)
    ensures |r| == |s|
  {
    if s == [] then [] else Reversed(s[1..]) + [s[0]]
  }

  /** The first `HistoryLimit` elements of `s`. */
  function Cap(s: seq<Entry>): (r: seq<Entry>)
    ensures |r| == Min(|s|, HistoryLimit) && r == s[..|r|]
  {
    if |s| > HistoryLimit then s[..HistoryLimit] else s
  }

  /** The history after recording each of `rs` in turn. */
  function Replay(h: seq<Entry>, rs: seq<Entry>): seq<Entry>
    decreases |rs|
  {
    if rs == [] then h else Replay(Prepended(rs[0], h), rs[1..])
  }

  lemma CapAfterCap(x: seq<Entry>, y: seq<Entry>)
    ensures Cap(x + Cap(y)) == Cap(x + y)
  {
    if |x| >= HistoryLimit {
      assert (x + Cap(y))[..HistoryLimit] == x[..HistoryLimit] == (x + y)[..HistoryLimit];
    } else if |y| > HistoryLimit {
      assert Cap(x + Cap(y)) == (x + y)[..HistoryLimit];
    }
  }

  /** Recording entries one after another keeps the newest first and the whole
      list cut to the limit. */
  lemma {:induction false} ReplayIsCappedReverse(h: seq<Entry>, rs: seq<Entry>)
    requires rs != []
    ensures Replay(h, rs) == Cap(Reversed(rs) + h)
    decreases |rs|
  {
    var r, rest := rs[0], rs[1..];
    assert Prepended(r, h) == Cap([r] + h);
    assert Reversed(rs) + h == Reversed(rest) + ([r] + h);
    if rest == [] {
      assert Reversed(rest) + ([r] + h) == [r] + h;
    } else {
      ReplayIsCappedReverse(Prepended(r, h), rest);
      CapAfterCap(Reversed(rest), [r] + h);
    }
  }

  lemma {:induction false} ReversedConcat(a: seq<Entry>, b: seq<Entry>)
    ensures Reversed(a + b) == Reversed(b) + Reversed(a)
  {
    if a == [] {
      assert a + b == b;
    } else {
      assert (a + b)[1..] == a[1..] + b;
      ReversedConcat(a[1..], b);
    }
  }

  /** After `n` publishes into an empty history it holds all `n` entries newest
      first when `n <= 100`, and otherwise the 100 most recent, newest first. */
  lemma HistoryAfterPublishes(rs: seq<Entry>)
    ensures |rs| <= HistoryLimit ==> Replay([], rs) == Reversed(rs)
    ensures |rs| > HistoryLimit ==> Replay([], rs) == Reversed(rs[|rs| - HistoryLimit..])
  {
    if |rs| <= HistoryLimit {
      HistoryBelowLimit(rs);
    } else {
      HistoryAboveLimit(rs);
    }
  }

  lemma HistoryBelowLimit(rs: seq<Entry>)
    requires |rs| <= HistoryLimit
    ensures Replay([], rs) == Reversed(rs)
  {
    if rs != [] {
      ReplayIsCappedReverse([], rs);
      assert Reversed(rs) + [] == Reversed(rs);
    }
  }

  lemma HistoryAboveLimit(rs: seq<Entry>)
    requires |rs| > HistoryLimit
    ensures Replay([], rs) == Reversed(rs[|rs| - HistoryLimit..])
  {
    ReplayIsCappedReverse([], rs);
    assert Reversed(rs) + [] == Reversed(rs);
    var k := |rs| - HistoryLimit;
    var older, newer := rs[..k], rs[k..];
    assert rs == older + newer;
    ReversedConcat(older, newer);
    CapOfFull(Reversed(newer), Reversed(older));
  }

  lemma CapOfFull(a: seq<Entry>, b: seq<Entry>)
    requires |a| == HistoryLimit
    ensures Cap(a + b) == a
  {
    assert (a + b)[..HistoryLimit] == a;
  }

  // ---------------------------------------------------------------------------
  // The upload pipeline

  datatype Failure = MissingFile(path: string) | FundingFailed | Thrown(message: string) | HistoryNotAList

  /** `{status: "ok", id, url}` or `{status: "fail", error}` */
  datatype Receipt = Published(id: string, url: string) | Failed(reason: Failure)

  /** The calls a run of `uploadFile` makes, its receipt, and the history file
      before and after, given the tags and the timestamp of the run: first the
      existence check. */
  predicate IsUploadRun(path: string, tags: seq<Tag>, now: string, t: seq<Call>,
                        before: Stored, after: Stored, r: Receipt)
  {
    && |t| >= 1 && t[0].ExistsCall? && t[0].path == path
    && if !t[0].found then |t| == 1 && after == before && r == Failed(MissingFile(path))
       else AfterExists(path, tags, now, t[1..], before, after, r)
  }

  /** The rest of a run once the file exists: the read. */
  predicate AfterExists(path: string, tags: seq<Tag>, now: string, t: seq<Call>,
                        before: Stored, after: Stored, r: Receipt)
  {
    && |t| >= 1 && t[0].ReadCall? && t[0].path == path
    && match t[0].content
       case Err(msg) => |t| == 1 && after == before && r == Failed(Thrown(msg))
       case Ok(data) => AfterRead(path, data, tags, now, t[1..], before, after, r)
  }

  /** The rest of a run once the file is read: funding for its size. */
  predicate AfterRead(path: string, data: seq<byte>, tags: seq<Tag>, now: string, t: seq<Call>,
                      before: Stored, after: Stored, r: Receipt)
  {
    var f := Funding(|data|, t);
    && f.Some?
    && if !f.value.0 then |t| == f.value.1 && after == before && r == Failed(FundingFailed)
       else AfterFunding(path, data, tags, now, t[f.value.1..], before, after, r)
  }

  /** The rest of a run once funding succeeded: one upload, then the history. */
  predicate AfterFunding(path: string, data: seq<byte>, tags: seq<Tag>, now: string, t: seq<Call>,
                         before: Stored, after: Stored, r: Receipt)
  {
    && |t| == 1 && t[0].UploadCall? && t[0].data == data && t[0].tags == tags
    && match t[0].receipt
       case Err(msg) => after == before && r == Failed(Thrown(msg))
       case Ok(id) =>
         var entry := Entry(now, BaseName(path), id, GatewayLink + id, |data|, tags);
         match Loaded(before)
         case None => after == before && r == Failed(HistoryNotAList)
         case Some(h) => after == List(Prepended(entry, h)) && r == Published(id, GatewayLink + id)
  }

  /** A run is its existence check followed by the rest. */
  lemma ExistsThen(path: string, tags: seq<Tag>, now: string, found: bool, rest: seq<Call>,
                   before: Stored, after: Stored, r: Receipt)
    requires !found ==> rest == [] && after == before && r == Failed(MissingFile(path))
    requires found ==> AfterExists(path, tags, now, rest, before, after, r)
    ensures IsUploadRun(path, tags, now, [ExistsCall(path, found)] + rest, before, after, r)
  {
    assert ([ExistsCall(path, found)] + rest)[1..] == rest;
  }

  /** The rest of a run is its read followed by the rest. */
  lemma ReadThen(path: string, tags: seq<Tag>, now: string, content: Result<seq<byte>>, rest: seq<Call>,
                 before: Stored, after: Stored, r: Receipt)
    requires content.Err? ==> rest == [] && after == before && r == Failed(Thrown(content.message))
    requires content.Ok? ==> AfterRead(path, content.value, tags, now, rest, before, after, r)
    ensures AfterExists(path, tags, now, [ReadCall(path, content)] + rest, before, after, r)
  {
    assert ([ReadCall(path, content)] + rest)[1..] == rest;
  }

  /** The rest of a run once the file is read is a funding run followed by the rest. */
  lemma FundThen(path: string, data: seq<byte>, tags: seq<Tag>, now: string, ok: bool,
                 tF: seq<Call>, rest: seq<Call>, before: Stored, after: Stored, r: Receipt)
    requires Funding(|data|, tF) == Some((ok, |tF|))
    requires !ok ==> rest == [] && after == before && r == Failed(FundingFailed)
    requires ok ==> AfterFunding(path, data, tags, now, rest, before, after, r)
    ensures AfterRead(path, data, tags, now, tF + rest, before, after, r)
  {
    FundingPrefix(|data|, tF, rest);
    assert (tF + rest)[|tF|..] == rest;
    if !ok {
      assert tF + rest == tF;
    }
  }

  /** `uploadFile`: existence check, read, funding, upload, history; the first
      failure ends the run with status `fail`. */
  method UploadFile(g: Gateway, j: Journal, path: string, tags: seq<Tag>, now: string) returns (r: Receipt)
    modifies g, j
    ensures old(g.trace) <= g.trace
    ensures IsUploadRun(path, tags, now, g.trace[|old(g.trace)|..], old(j.stored), j.stored, r)
  {
    ghost var t0 := g.trace;
    ghost var s0 := j.stored;
    var found := g.Exists(path);
    if !found {
      r := Failed(MissingFile(path));
      ExistsThen(path, tags, now, found, [], s0, j.stored, r);
      assert g.trace[|t0|..] == [ExistsCall(path, found)] + [];
      return;
    }
    var buffer := g.Read(path);
    if buffer.Err? {
      r := Failed(Thrown(buffer.message));
      ReadThen(path, tags, now, buffer, [], s0, j.stored, r);
      ExistsThen(path, tags, now, found, [ReadCall(path, buffer)] + [], s0, j.stored, r);
      assert g.trace[|t0|..] == [ExistsCall(path, found)] + ([ReadCall(path, buffer)] + []);
      return;
    }
    ghost var t2 := g.trace;
    r := FundAndUpload(g, j, path, buffer.value, tags, now);
    ghost var rest := g.trace[|t2|..];
    ReadThen(path, tags, now, buffer, rest, s0, j.stored, r);
    ExistsThen(path, tags, now, found, [ReadCall(path, buffer)] + rest, s0, j.stored, r);
    TwoCallsThen(t0, ExistsCall(path, found), ReadCall(path, buffer), t2, g.trace);
  }

  /** A trace that grew by two calls and then by more: what it gained is the
      two calls followed by the rest. */
  lemma TwoCallsThen(t0: seq<Call>, c1: Call, c2: Call, t2: seq<Call>, t: seq<Call>)
    requires t2 == t0 + [c1] + [c2] && t2 <= t
    ensures t[|t0|..] == [c1] + ([c2] + t[|t2|..])
  {
    assert t == t2 + t[|t2|..];
  }

  /** The part of `uploadFile` after the read: lazy funding, then the upload. */
  method FundAndUpload(g: Gateway, j: Journal, path: string, data: seq<byte>, tags: seq<Tag>, now: string)
    returns (r: Receipt)
    modifies g, j
    ensures old(g.trace) <= g.trace
    ensures AfterRead(path, data, tags, now, g.trace[|old(g.trace)|..], old(j.stored), j.stored, r)
  {
    ghost var t0 := g.trace;
    ghost var s0 := j.stored;
    var fundingSuccess := LazyFund(g, |data|);
    ghost var tF := g.trace[|t0|..];
    if !fundingSuccess {
      r := Failed(FundingFailed);
      FundThen(path, data, tags, now, fundingSuccess, tF, [], s0, j.stored, r);
      assert g.trace[|t0|..] == tF + [];
      return;
    }
    ghost var t1 := g.trace;
    r := UploadAndRecord(g, j, path, data, tags, now);
    ghost var tU := g.trace[|t1|..];
    FundThen(path, data, tags, now, fundingSuccess, tF, tU, s0, j.stored, r);
    assert g.trace[|t0|..] == tF + tU;
  }

  /** The part of `uploadFile` after funding: the upload and the history entry. */
  method UploadAndRecord(g: Gateway, j: Journal, path: string, data: seq<byte>, tags: seq<Tag>, now: string)
    returns (r: Receipt)
    modifies g, j
    ensures old(g.trace) <= g.trace
    ensures AfterFunding(path, data, tags, now, g.trace[|old(g.trace)|..], old(j.stored), j.stored, r)
  {
    ghost var t0 := g.trace;
    var receipt := g.Upload(data, tags);
    assert g.trace[|t0|..] == [UploadCall(data, tags, receipt)];
    if receipt.Err? {
      return Failed(Thrown(receipt.message));
    }
    var uploadUrl := GatewayLink + receipt.value;
    var saved := j.SaveUploadHistory(Entry(now, BaseName(path), receipt.value, uploadUrl, |data|, tags));
    if !saved {
      r := Failed(HistoryNotAList);
    } else {
      r := Published(receipt.value, uploadUrl);
    }
  }

  /** A funding run at the head of a trace is unaffected by what follows it. */
  lemma FundingPrefix(size: nat, t: seq<Call>, more: seq<Call>)
    requires Funding(size, t).Some? && Funding(size, t).value.1 == |t|
    ensures Funding(size, t + more) == Funding(size, t)
  {
    var u := t + more;
    assert forall i :: 0 <= i < |t| ==> u[i] == t[i];
  }

  /** A file that does not exist fails the run after the existence check alone:
      no read, no funding, no upload, no history write. */
  lemma MissingFileStopsFirst(path: string, tags: seq<Tag>, now: string, t: seq<Call>,
                              before: Stored, after: Stored, r: Receipt)
    requires IsUploadRun(path, tags, now, t, before, after, r)
    requires !t[0].found
    ensures t == [ExistsCall(path, false)] && after == before && r == Failed(MissingFile(path))
  {
  }

  /** No call among the first `n` is an upload. */
  predicate NoUploadBefore(t: seq<Call>, n: nat)
  {
    n <= |t| && forall i :: 0 <= i < n ==> !t[i].UploadCall?
  }

  /** The history after a successful run: the new entry for the upload of `data`
      with id `id`, prepended to the old history. */
  predicate Recorded(path: string, data: seq<byte>, tags: seq<Tag>, now: string, id: string,
                     before: Stored, after: Stored)
  {
    && Loaded(before).Some?
    && after == List(Prepended(Entry(now, BaseName(path), id, GatewayLink + id, |data|, tags), Loaded(before).value))
  }

  lemma NoUploadShift(t: seq<Call>, n: nat)
    requires |t| >= 1 && !t[0].UploadCall? && NoUploadBefore(t[1..], n)
    ensures NoUploadBefore(t, n + 1)
  {
    forall i | 0 < i < n + 1 ensures !t[i].UploadCall? {
      assert t[i] == t[1..][i - 1];
    }
  }

  /** No call of a funding run is an upload. */
  lemma FundingUploadsNothing(size: nat, t: seq<Call>)
    requires Funding(size, t).Some?
    ensures NoUploadBefore(t, Funding(size, t).value.1)
  {
  }

  /** A run once the file is read: a failure leaves the history alone. */
  lemma ReadFailure(path: string, data: seq<byte>, tags: seq<Tag>, now: string, t: seq<Call>,
                    before: Stored, after: Stored, r: Receipt)
    requires AfterRead(path, data, tags, now, t, before, after, r)
    requires r.Failed?
    ensures after == before
  {
  }

  /** A run once the file is read: failed funding uploads nothing. */
  lemma ReadFundingFailure(path: string, data: seq<byte>, tags: seq<Tag>, now: string, t: seq<Call>,
                           before: Stored, after: Stored)
    requires AfterRead(path, data, tags, now, t, before, after, Failed(FundingFailed))
    ensures NoUploadBefore(t, |t|)
  {
    FundingUploadsNothing(|data|, t);
  }

  /** The calls of a run that published `r`, funding starting at `n`: the price
      query at `n`, and one upload, the last call, of this data and these tags,
      which answered with the published id. */
  predicate PublishedTrace(t: seq<Call>, n: nat, data: seq<byte>, tags: seq<Tag>, r: Receipt)
  {
    && r.Published? && r.url == GatewayLink + r.id
    && |t| >= n + 2 && t[n].PriceCall? && t[|t| - 1] == UploadCall(data, tags, Ok(r.id))
    && NoUploadBefore(t, |t| - 1)
  }

  /** A call that is not an upload, put in front of a published trace, moves its
      funding one place on. */
  lemma PublishedTraceShift(t: seq<Call>, n: nat, data: seq<byte>, tags: seq<Tag>, r: Receipt)
    requires |t| >= 1 && !t[0].UploadCall? && PublishedTrace(t[1..], n, data, tags, r)
    ensures PublishedTrace(t, n + 1, data, tags, r)
  {
    var u := t[1..];
    assert t[n + 1] == u[n] && t[|t| - 1] == u[|u| - 1];
    NoUploadShift(t, |u| - 1);
  }

  /** A run once the file is read: a publish is funding followed by one upload. */
  lemma ReadPublished(path: string, data: seq<byte>, tags: seq<Tag>, now: string, t: seq<Call>,
                      before: Stored, after: Stored, r: Receipt)
    requires AfterRead(path, data, tags, now, t, before, after, r)
    requires r.Published?
    ensures PublishedTrace(t, 0, data, tags, r)
    ensures Recorded(path, data, tags, now, r.id, before, after)
  {
    FundingUploadsNothing(|data|, t);
    var n := Funding(|data|, t).value.1;
    assert |t| == n + 1 && t[n] == t[n..][0];
  }

  /** A run once the file exists: a publish is the read, then funding and one upload. */
  lemma ExistsPublished(path: string, tags: seq<Tag>, now: string, t: seq<Call>,
                        before: Stored, after: Stored, r: Receipt)
    requires AfterExists(path, tags, now, t, before, after, r)
    requires r.Published?
    ensures t[0].ReadCall? && t[0].content.Ok?
    ensures PublishedTrace(t, 1, t[0].content.value, tags, r)
    ensures Recorded(path, t[0].content.value, tags, now, r.id, before, after)
  {
    if t[0].content.Err? {
      assert false;
    }
    ReadPublished(path, t[0].content.value, tags, now, t[1..], before, after, r);
    PublishedTraceShift(t, 0, t[0].content.value, tags, r);
  }

  /** A whole run: a publish is the existence check and the read, then funding
      and one upload. */
  lemma RunPublished(path: string, tags: seq<Tag>, now: string, t: seq<Call>,
                     before: Stored, after: Stored, r: Receipt)
    requires IsUploadRun(path, tags, now, t, before, after, r)
    requires r.Published?
    ensures |t| >= 2 && t[0].ExistsCall? && t[1].ReadCall? && t[1].content.Ok?
    ensures PublishedTrace(t, 2, t[1].content.value, tags, r)
    ensures Recorded(path, t[1].content.value, tags, now, r.id, before, after)
  {
    var t1 := t[1..];
    ExistsPublished(path, tags, now, t1, before, after, r);
    assert t[1] == t1[0];
    PublishedTraceShift(t, 1, t1[0].content.value, tags, r);
  }

  /** A whole run: a failure leaves the history alone. */
  lemma RunFailure(path: string, tags: seq<Tag>, now: string, t: seq<Call>,
                   before: Stored, after: Stored, r: Receipt)
    requires IsUploadRun(path, tags, now, t, before, after, r)
    requires r.Failed?
    ensures after == before
  {
    if t[0].found {
      var t1 := t[1..];
      if t1[0].content.Ok? {
        ReadFailure(path, t1[0].content.value, tags, now, t1[1..], before, after, r);
      }
    }
  }

  /** A whole run: failed funding uploads nothing. */
  lemma RunFundingFailure(path: string, tags: seq<Tag>, now: string, t: seq<Call>,
                          before: Stored, after: Stored)
    requires IsUploadRun(path, tags, now, t, before, after, Failed(FundingFailed))
    ensures NoUploadBefore(t, |t|)
  {
    var t1 := t[1..];
    var t2 := t1[1..];
    ReadFundingFailure(path, t1[0].content.value, tags, now, t2, before, after);
    NoUploadShift(t1, |t2|);
    NoUploadShift(t, |t1|);
  }

  /** The history after a successful run, entry by entry. */
  lemma RecordedEntries(path: string, data: seq<byte>, tags: seq<Tag>, now: string, id: string,
                        before: Stored, after: Stored)
    requires Recorded(path, data, tags, now, id, before, after)
    ensures after.List?
    ensures |after.entries| == Min(|Loaded(before).value| + 1, HistoryLimit)
    ensures after.entries[0] == Entry(now, BaseName(path), id, GatewayLink + id, |data|, tags)
    ensures after.entries[1..] == Loaded(before).value[..|after.entries| - 1]
  {
  }

  /** A failed run leaves the history file as it was. */
  lemma FailureWritesNoHistory(path: string, tags: seq<Tag>, now: string, t: seq<Call>,
                               before: Stored, after: Stored, r: Receipt)
    requires IsUploadRun(path, tags, now, t, before, after, r)
    requires r.Failed?
    ensures after == before
  {
    RunFailure(path, tags, now, t, before, after, r);
  }

  /** When funding fails, nothing is uploaded. */
  lemma FundingFailureUploadsNothing(path: string, tags: seq<Tag>, now: string, t: seq<Call>,
                                     before: Stored, after: Stored, r: Receipt)
    requires IsUploadRun(path, tags, now, t, before, after, r)
    requires r == Failed(FundingFailed)
    ensures forall i :: 0 <= i < |t| ==> !t[i].UploadCall?
  {
    RunFundingFailure(path, tags, now, t, before, after);
  }

  /** A successful run made exactly one upload, as its last call, after the
      existence check, the read and the funding, and returns the gateway link
      of that upload's id. */
  lemma SuccessPublishesOnce(path: string, tags: seq<Tag>, now: string, t: seq<Call>,
                             before: Stored, after: Stored, r: Receipt)
    requires IsUploadRun(path, tags, now, t, before, after, r)
    requires r.Published?
    ensures r.url == GatewayLink + r.id
    ensures |t| >= 4 && t[0].ExistsCall? && t[1].ReadCall? && t[1].content.Ok? && t[2].PriceCall?
    ensures t[|t| - 1] == UploadCall(t[1].content.value, tags, Ok(r.id))
    ensures forall i :: 0 <= i < |t| - 1 ==> !t[i].UploadCall?
  {
    RunPublished(path, tags, now, t, before, after, r);
  }

  /** A successful run puts exactly one new entry, carrying the published id and
      link, the base name and the size of the bytes read, at the head of the
      history, and keeps the older entries after it, cut to the limit. */
  lemma SuccessRecordsOneEntry(path: string, tags: seq<Tag>, now: string, t: seq<Call>,
                               before: Stored, after: Stored, r: Receipt)
    requires IsUploadRun(path, tags, now, t, before, after, r)
    requires r.Published?
    ensures |t| >= 2 && t[1].ReadCall? && t[1].content.Ok?
    ensures Loaded(before).Some? && after.List?
    ensures |after.entries| == Min(|Loaded(before).value| + 1, HistoryLimit)
    ensures after.entries[0] == Entry(now, BaseName(path), r.id, GatewayLink + r.id, |t[1].content.value|, tags)
    ensures after.entries[1..] == Loaded(before).value[..|after.entries| - 1]
  {
    RunPublished(path, tags, now, t, before, after, r);
    RecordedEntries(path, t[1].content.value, tags, now, r.id, before, after);
  }

  // ---------------------------------------------------------------------------
  // main

  datatype Outcome = Rejected(reason: Rejection) | NoUploader | Attempted(receipt: Receipt)

  /** The process exit status of `main`: 1 after a usage error, an unsupported
      extension, a missing type, a missing uploader or a failed upload; 0 only
      after a published upload. */
  function ExitStatus(o: Outcome): nat
  {
    if o.Attempted? && o.receipt.Published? then 0 else 1
  }

  /** `main`: parses the arguments, chooses the tags, and uploads; `ready` says
      whether the uploader could be initialised from the wallet key. */
  method Run(g: Gateway, j: Journal, argv: seq<string>, ready: bool, now: string) returns (o: Outcome)
    modifies g, j
    ensures PlanFor(Settings(argv)).Reject? ==>
      o == Rejected(PlanFor(Settings(argv)).reason) && g.trace == old(g.trace) && j.stored == old(j.stored)
    ensures PlanFor(Settings(argv)).Publish? && !ready ==>
      o == NoUploader && g.trace == old(g.trace) && j.stored == old(j.stored)
    ensures PlanFor(Settings(argv)).Publish? && ready ==>
      o.Attempted? && old(g.trace) <= g.trace &&
      IsUploadRun(PlanFor(Settings(argv)).file, PlanFor(Settings(argv)).tags, now,
                  g.trace[|old(g.trace)|..], old(j.stored), j.stored, o.receipt)
    ensures ExitStatus(o) == 0 <==>
      PlanFor(Settings(argv)).Publish? && ready && o.Attempted? && o.receipt.Published?
  {
    var config := ParseArgs(argv);
    var plan := PlanFor(config);
    if plan.Reject? {
      return Rejected(plan.reason);
    }
    if !ready {
      return NoUploader;
    }
    var result := UploadFile(g, j, plan.file, plan.tags, now);
    return Attempted(result);
  }
}
