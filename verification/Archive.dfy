/**
 The offline archive: a walk over the data root that writes every directory and regular file
 outside the excluded top-level directories, with the mounted artifact in place of its path.
 */
module Archive {
  import opened Octets

  type Path = seq<string>

  datatype Node = Dir(children: Children) | File(content: seq<byte>, links: nat) | Special
  datatype Children = Nil | Cons(name: string, node: Node, rest: Children)

  const EXCLUDED := {"logs", "cache", "temporary-sockets"}

  datatype Entry = DirEntry(path: Path) | FileEntry(path: Path, content: seq<byte>)

  /** How entries become bytes: a header, the content and its padding, and a trailer at the end. */
  datatype Tar = Tar(header: Entry -> seq<byte>, padding: nat -> seq<byte>, trailer: seq<byte>)

  /** `faulty` says where reading fails: an unreadable or changed file or directory, or a cancelled run. */
  datatype Config = Config(
    artifact: Path, mount: Option<Node>, maxBytes: nat, maxFiles: nat, tar: Tar, faulty: Path -> bool)

  function Content(e: Entry): seq<byte> {
    if e.DirEntry? then [] else e.content
  }

  function Block(tar: Tar, e: Entry): seq<byte> {
    tar.header(e) + Content(e) + tar.padding(|Content(e)|)
  }

  function Blocks(tar: Tar, entries: seq<Entry>): seq<byte> {
    if entries == [] then [] else Blocks(tar, entries[..|entries| - 1]) + Block(tar, entries[|entries| - 1])
  }

  // ---- What belongs in the archive ---------------------------------------------------

  /** Outside the excluded directories, and neither at nor under the mounted artifact. */
  predicate Kept(config: Config, p: Path)
    requires p != []
  {
    p[0] !in EXCLUDED && !(config.mount.Some? && config.artifact <= p)
  }

  predicate Unsafe(name: string) {
    '\\' in name
  }

  function EntryOf(p: Path, node: Node): Entry {
    if node.File? then FileEntry(p, node.content) else DirEntry(p)
  }

  function Walk(config: Config, p: Path, node: Node): seq<Entry>
    requires p != []
    decreases node
  {
    if !Kept(config, p) then []
    else if node.Dir? then [EntryOf(p, node)] + WalkAll(config, p, node.children)
    else [EntryOf(p, node)]
  }

  function WalkAll(config: Config, p: Path, children: Children): seq<Entry>
    decreases children
  {
    if children.Nil? then []
    else Walk(config, p + [children.name], children.node) + WalkAll(config, p, children.rest)
  }

  /** Nothing on the walk is refused: no unsafe name, link, special file or fault among what it reads. */
  predicate Readable(config: Config, p: Path, node: Node)
    requires p != []
    decreases node
  {
    && !Unsafe(p[|p| - 1])
    && (Kept(config, p) ==>
          && !config.faulty(p)
          && match node
             case Dir(children) => AllReadable(config, p, children)
             case File(_, links) => links == 1
             case Special => false)
  }

  predicate AllReadable(config: Config, p: Path, children: Children)
    decreases children
  {
    children.Cons? ==>
      Readable(config, p + [children.name], children.node) && AllReadable(config, p, children.rest)
  }

  // ---- Writing ----------------------------------------------------------------------

  class BoundedWriter {
    const max: nat
    var written: seq<byte>
    var remaining: int

    ghost predicate Valid()
      reads this
    {
      remaining >= 0 && |written| + remaining == max
    }

    constructor (max: nat)
      ensures Valid() && written == [] && this.max == max
    {
      this.max := max;
      written := [];
      remaining := max;
    }

    method Write(p: seq<byte>) returns (ok: bool)
      requires Valid()
      modifies this
      ensures Valid()
      ensures ok <==> |old(written)| + |p| <= max
      ensures written == old(written) + (if ok then p else [])
    {
      if |p| > remaining { return false; }
      written := written + p;
      remaining := remaining - |p|;
      return true;
    }
  }

  /** Room left for more entries and bytes. */
  ghost predicate Admits(config: Config, count: nat, written: seq<byte>, entries: seq<Entry>) {
    count + |entries| <= config.maxFiles && |written| + |Blocks(config.tar, entries)| <= config.maxBytes
  }

  lemma {:induction false} BlocksConcat(tar: Tar, a: seq<Entry>, b: seq<Entry>)
    ensures Blocks(tar, a + b) == Blocks(tar, a) + Blocks(tar, b)
  {
    if b == [] {
      assert a + b == a;
    } else {
      assert (a + b)[..|a + b| - 1] == a + b[..|b| - 1];
      BlocksConcat(tar, a, b[..|b| - 1]);
    }
  }

  /** Writing two lists of entries is writing one and then, from where that ended, the other. */
  lemma AdmitsBoth(config: Config, count: nat, written: seq<byte>, a: seq<Entry>, b: seq<Entry>)
    ensures Admits(config, count, written, a + b) <==>
            Admits(config, count, written, a) && Admits(config, count + |a|, written + Blocks(config.tar, a), b)
    ensures written + Blocks(config.tar, a) + Blocks(config.tar, b) == written + Blocks(config.tar, a + b)
  {
    BlocksConcat(config.tar, a, b);
  }

  lemma OneBlock(tar: Tar, e: Entry)
    ensures Blocks(tar, [e]) == Block(tar, e)
  {
    assert [e][..0] == [];
  }

  const CHUNK := 0x8000

  class Archiver {
    const config: Config
    const writer: BoundedWriter
    var count: nat

    ghost predicate Valid()
      reads this, writer
    {
      writer.Valid() && writer.max == config.maxBytes && count <= config.maxFiles
    }

    constructor (config: Config)
      ensures Valid() && fresh(writer) && count == 0 && writer.written == [] && this.config == config
    {
      this.config := config;
      writer := new BoundedWriter(config.maxBytes);
      count := 0;
    }

    /** Copies in chunks; the limit is met for all of them or the copy fails. */
    method Copy(content: seq<byte>) returns (ok: bool)
      requires Valid()
      modifies writer
      ensures Valid()
      ensures ok <==> |old(writer.written)| + |content| <= config.maxBytes
      ensures ok ==> writer.written == old(writer.written) + content
    {
      var n := 0;
      while n < |content|
        invariant 0 <= n <= |content| && Valid()
        invariant writer.written == old(writer.written) + content[..n]
      {
        var next := if n + CHUNK < |content| then n + CHUNK else |content|;
        assert content[..next] == content[..n] + content[n..next];
        ok := writer.Write(content[n..next]);
        if !ok { return; }
        n := next;
      }
      assert content[..n] == content;
      return true;
    }

    method WriteEntry(e: Entry) returns (ok: bool)
      requires Valid()
      modifies writer
      ensures Valid()
      ensures ok <==> |old(writer.written)| + |Block(config.tar, e)| <= config.maxBytes
      ensures ok ==> writer.written == old(writer.written) + Block(config.tar, e)
    {
      ok := writer.Write(config.tar.header(e));
      if !ok { return; }
      ok := Copy(Content(e));
      if !ok { return; }
      ok := writer.Write(config.tar.padding(|Content(e)|));
    }

    /** Counts an entry against the limit and writes it. */
    method Add(e: Entry) returns (ok: bool)
      requires Valid()
      modifies this, writer
      ensures Valid()
      ensures ok <==> Admits(config, old(count), old(writer.written), [e])
      ensures ok ==> count == old(count) + 1 && writer.written == old(writer.written) + Blocks(config.tar, [e])
    {
      OneBlock(config.tar, e);
      if count + 1 > config.maxFiles { return false; }
      count := count + 1;
      ok := WriteEntry(e);
    }

    /** The walk function on one path, and on what is below it unless the directory is skipped. */
    method Visit(p: Path, node: Node) returns (ok: bool)
      requires Valid() && p != []
      modifies this, writer
      ensures Valid()
      ensures ok <==>
              Readable(config, p, node) && Admits(config, old(count), old(writer.written), Walk(config, p, node))
      ensures ok ==> && count == old(count) + |Walk(config, p, node)|
                     && writer.written == old(writer.written) + Blocks(config.tar, Walk(config, p, node))
      decreases node
    {
      if Unsafe(p[|p| - 1]) { return false; }
      if config.mount.Some? && config.artifact <= p { return true; }
      if p[0] in EXCLUDED { return true; }
      if config.faulty(p) { return false; }
      match node {
        case Dir(children) =>
          hide WalkAll, AllReadable, Blocks, Admits;
          AdmitsBoth(config, count, writer.written, [EntryOf(p, node)], WalkAll(config, p, children));
          ok := Add(DirEntry(p));
          if !ok { return; }
          ok := VisitAll(p, children);
        case File(content, links) =>
          if links != 1 { return false; }
          ok := Add(FileEntry(p, content));
        case Special =>
          return false;
      }
    }

    method VisitAll(p: Path, children: Children) returns (ok: bool)
      requires Valid()
      modifies this, writer
      ensures Valid()
      ensures ok <==> AllReadable(config, p, children) &&
                      Admits(config, old(count), old(writer.written), WalkAll(config, p, children))
      ensures ok ==> && count == old(count) + |WalkAll(config, p, children)|
                     && writer.written == old(writer.written) + Blocks(config.tar, WalkAll(config, p, children))
      decreases children
    {
      if children.Nil? { return true; }
      hide Walk, Readable, Blocks, Admits;
      ghost var first, others := Walk(config, p + [children.name], children.node), WalkAll(config, p, children.rest);
      AdmitsBoth(config, count, writer.written, first, others);
      ok := Visit(p + [children.name], children.node);
      if !ok { return; }
      ok := VisitAll(p, children.rest);
    }

    /** The whole archive: the walk, the mounted artifact, the trailer. */
    method ArchiveRoot(root: Children) returns (ok: bool)
      requires Valid() && count == 0 && writer.written == []
      modifies this, writer
      ensures Valid()
      ensures ok <==> Archivable(config, root)
      ensures ok ==> && writer.written == Blocks(config.tar, Archived(config, root)) + config.tar.trailer
                     && |writer.written| <= config.maxBytes
                     && count == |Archived(config, root)| <= config.maxFiles
    {
      hide WalkAll, AllReadable, Blocks, Admits;
      ghost var walked, mounted := WalkAll(config, [], root), Mounted(config);
      AdmitsBoth(config, 0, [], walked, mounted);
      assert [] + Blocks(config.tar, walked) == Blocks(config.tar, walked);
      AdmitsMeans(config, 0, [], Archived(config, root));
      AdmitsMeans(config, 0, [], walked);
      NoBlocks(config, |walked|, Blocks(config.tar, walked));
      if config.faulty([]) { return false; }
      ok := VisitAll([], root);
      if !ok { return; }
      assert writer.written == Blocks(config.tar, walked) && walked + [] == walked;
      if config.mount.Some? {
        if config.faulty(config.artifact) || !config.mount.value.File? || config.mount.value.links != 1 {
          return false;
        }
        ok := Add(FileEntry(config.artifact, config.mount.value.content));
        if !ok { return; }
      }
      assert writer.written == Blocks(config.tar, Archived(config, root));
      ok := writer.Write(config.tar.trailer);
    }
  }

  function Mounted(config: Config): seq<Entry> {
    if config.mount.Some? then [EntryOf(config.artifact, config.mount.value)] else []
  }

  function Archived(config: Config, root: Children): seq<Entry> {
    WalkAll(config, [], root) + Mounted(config)
  }

  predicate Archivable(config: Config, root: Children) {
    && !config.faulty([]) && AllReadable(config, [], root)
    && (config.mount.Some? ==>
          !config.faulty(config.artifact) && config.mount.value.File? && config.mount.value.links == 1)
    && |Archived(config, root)| <= config.maxFiles
    && |Blocks(config.tar, Archived(config, root))| + |config.tar.trailer| <= config.maxBytes
  }

  lemma AdmitsMeans(config: Config, count: nat, written: seq<byte>, entries: seq<Entry>)
    ensures Admits(config, count, written, entries) <==>
            count + |entries| <= config.maxFiles && |written| + |Blocks(config.tar, entries)| <= config.maxBytes
  {
  }

  lemma NoBlocks(config: Config, count: nat, written: seq<byte>)
    ensures Blocks(config.tar, []) == []
    ensures count <= config.maxFiles && |written| <= config.maxBytes ==> Admits(config, count, written, [])
  {
  }

  // ---- What a successful archive holds ---------------------------------------------------

  function Lookup(children: Children, p: Path): Option<Node>
    decreases children
  {
    if children.Nil? || p == [] then None
    else if p[0] != children.name then Lookup(children.rest, p)
    else if |p| == 1 then Some(children.node)
    else if children.node.Dir? then Lookup(children.node.children, p[1..])
    else None
  }

  function Names(children: Children): set<string> {
    if children.Nil? then {} else {children.name} + Names(children.rest)
  }

  /** A directory has no two children of the same name. */
  predicate Distinct(children: Children)
    decreases children
  {
    children.Cons? ==>
      && children.name !in Names(children.rest) && Distinct(children.rest)
      && (children.node.Dir? ==> Distinct(children.node.children))
  }

  /** The entry of a kept node found below base. */
  predicate Belongs(config: Config, base: Path, children: Children, e: Entry) {
    && base < e.path
    && var node := Lookup(children, e.path[|base|..]);
    && node.Some? && Kept(config, e.path) && e == EntryOf(e.path, node.value)
  }

  lemma {:induction false} LookupNames(children: Children, p: Path)
    ensures Lookup(children, p).Some? ==> p != [] && p[0] in Names(children)
  {
    if children.Cons? { LookupNames(children.rest, p); }
  }

  lemma KeptAbove(config: Config, p: Path, q: Path)
    requires p != [] && p <= q
    ensures Kept(config, q) ==> Kept(config, p)
  {
  }

  lemma {:induction false} WalkIsExact(config: Config, p: Path, node: Node, e: Entry)
    requires p != [] && (node.Dir? ==> Distinct(node.children))
    ensures e in Walk(config, p, node) <==>
            Kept(config, p) && (e == EntryOf(p, node) || (node.Dir? && Belongs(config, p, node.children, e)))
    decreases node
  {
    if node.Dir? { WalkAllIsExact(config, p, node.children, e); }
  }

  lemma {:induction false} WalkAllIsExact(config: Config, base: Path, children: Children, e: Entry)
    requires Distinct(children)
    ensures e in WalkAll(config, base, children) <==> Belongs(config, base, children, e)
    decreases children
  {
    if children.Nil? {
    } else {
      var q := base + [children.name];
      WalkIsExact(config, q, children.node, e);
      WalkAllIsExact(config, base, children.rest, e);
      BelongsSplits(config, base, children, e);
      hide Belongs, Walk, Kept;
    }
  }

  /** Below base means at or below the first child, or among the others. */
  lemma BelongsSplits(config: Config, base: Path, children: Children, e: Entry)
    requires children.Cons? && Distinct(children)
    ensures var q := base + [children.name];
            Belongs(config, base, children, e) <==>
            || (Kept(config, q) &&
                (e == EntryOf(q, children.node) ||
                 (children.node.Dir? && Belongs(config, q, children.node.children, e))))
            || Belongs(config, base, children.rest, e)
  {
    hide Kept;
    var q := base + [children.name];
    if base < e.path {
      var rel := e.path[|base|..];
      LookupNames(children.rest, rel);
      assert e.path == base + rel;
      if q < e.path {
        assert rel[0] == children.name && rel[1..] == e.path[|q|..];
        KeptAbove(config, q, e.path);
      } else if rel[0] == children.name {
        assert rel == [children.name];
      }
    }
  }

  ghost predicate NamedOnce(entries: seq<Entry>) {
    forall i, j :: 0 <= i < j < |entries| ==> entries[i].path != entries[j].path
  }

  lemma NamedOnceBoth(a: seq<Entry>, b: seq<Entry>)
    requires NamedOnce(a) && NamedOnce(b)
    requires forall x, y :: x in a && y in b ==> x.path != y.path
    ensures NamedOnce(a + b)
  {
    forall i, j | 0 <= i < j < |a + b| ensures (a + b)[i].path != (a + b)[j].path {
      if i < |a| && j >= |a| { assert a[i] in a && b[j - |a|] in b; }
    }
  }

  lemma {:induction false} WalkNamesOnce(config: Config, p: Path, node: Node)
    requires p != [] && (node.Dir? ==> Distinct(node.children))
    ensures NamedOnce(Walk(config, p, node))
    decreases node
  {
    if node.Dir? {
      WalkAllNamesOnce(config, p, node.children);
      forall e | e in WalkAll(config, p, node.children) ensures e.path != p {
        WalkAllIsExact(config, p, node.children, e);
      }
      NamedOnceBoth([EntryOf(p, node)], WalkAll(config, p, node.children));
    }
  }

  lemma {:induction false} WalkAllNamesOnce(config: Config, base: Path, children: Children)
    requires Distinct(children)
    ensures NamedOnce(WalkAll(config, base, children))
    decreases children
  {
    if children.Cons? {
      var q := base + [children.name];
      var first, others := Walk(config, q, children.node), WalkAll(config, base, children.rest);
      WalkNamesOnce(config, q, children.node);
      WalkAllNamesOnce(config, base, children.rest);
      forall x, y | x in first && y in others ensures x.path != y.path {
        WalkIsExact(config, q, children.node, x);
        WalkAllIsExact(config, base, children.rest, y);
        LookupNames(children.rest, y.path[|base|..]);
        hide Walk, WalkAll, Kept, Lookup, Distinct;
        assert q <= x.path && q[|base|] == children.name;
      }
      NamedOnceBoth(first, others);
    }
  }

  /**
   The archive holds exactly the directories and files of the root outside the excluded directories, and the mounted
   artifact instead of everything at or under its path.
   */
  lemma ArchiveHoldsExactly(config: Config, root: Children, e: Entry)
    requires Distinct(root)
    ensures e in Archived(config, root) <==>
            || (config.mount.Some? && e == EntryOf(config.artifact, config.mount.value))
            || (e.path != [] && e.path[0] !in EXCLUDED && !(config.mount.Some? && config.artifact <= e.path) &&
                Lookup(root, e.path).Some? && e == EntryOf(e.path, Lookup(root, e.path).value))
  {
    hide WalkAll, Lookup;
    WalkAllIsExact(config, [], root, e);
    assert e.path[0..] == e.path;
  }

  /** Each name occurs once, and nothing but the mounted artifact lies at or under its path. */
  lemma ArchiveNamesOnce(config: Config, root: Children)
    requires Distinct(root) && config.artifact != []
    ensures NamedOnce(Archived(config, root))
    ensures config.mount.Some? ==>
              forall e :: e in Archived(config, root) && config.artifact <= e.path ==>
                            e == EntryOf(config.artifact, config.mount.value)
  {
    WalkAllNamesOnce(config, [], root);
    forall e | e in WalkAll(config, [], root) ensures !(config.mount.Some? && config.artifact <= e.path) {
      WalkAllIsExact(config, [], root, e);
    }
    hide WalkAll, Distinct;
    NamedOnceBoth(WalkAll(config, [], root), Mounted(config));
  }

  /** What can be archived has no links or special files: every kept node is a directory or a file with one link. */
  lemma {:induction false} ArchivableIsPlain(config: Config, base: Path, children: Children, rel: Path)
    requires AllReadable(config, base, children) && Lookup(children, rel).Some? && Kept(config, base + rel)
    ensures var node := Lookup(children, rel).value; node.Dir? || (node.File? && node.links == 1)
    decreases children
  {
    var q := base + [children.name];
    if rel[0] != children.name {
      ArchivableIsPlain(config, base, children.rest, rel);
    } else {
      assert base + rel == q + rel[1..];
      KeptAbove(config, q, base + rel);
      if |rel| > 1 { ArchivableIsPlain(config, q, children.node.children, rel[1..]); }
    }
  }

  /** Three top-level directories are left out, and whatever the mounted artifact stands in for. */
  lemma KeptIff(config: Config, p: Path)
    requires p != []
    ensures Kept(config, p) <==>
            && p[0] != "logs" && p[0] != "cache" && p[0] != "temporary-sockets"
            && (config.mount.Some? ==> forall below: Path :: p != config.artifact + below)
  {
    if config.artifact <= p { assert p == config.artifact + p[|config.artifact|..]; }
  }

  /** The walk gets to it: it is at the top, or the directory above it is kept. */
  predicate Visited(config: Config, base: Path, rel: Path) {
    rel != [] && (|rel| == 1 || Kept(config, base + rel[..|rel| - 1]))
  }

  /** The walk does not refuse it: a name without backslash, and if kept, a sound directory or file with one link. */
  predicate Acceptable(config: Config, p: Path, node: Node)
    requires p != []
  {
    && var name := p[|p| - 1];
    && (forall k :: 0 <= k < |name| ==> name[k] != '\\')
    && (Kept(config, p) ==> !config.faulty(p) && (node.Dir? || (node.File? && node.links == 1)))
  }

  lemma {:induction false} ReadableIsAcceptable(config: Config, base: Path, children: Children, rel: Path)
    requires AllReadable(config, base, children) && Lookup(children, rel).Some? && Visited(config, base, rel)
    ensures Acceptable(config, base + rel, Lookup(children, rel).value)
    decreases children
  {
    var q := base + [children.name];
    if rel[0] != children.name {
      ReadableIsAcceptable(config, base, children.rest, rel);
    } else if |rel| == 1 {
      assert base + rel == q && q[|q| - 1] == children.name;
    } else {
      assert base + rel == q + rel[1..];
      var above := base + rel[..|rel| - 1];
      assert above == q + rel[1..][..|rel[1..]| - 1];
      KeptAbove(config, q, above);
      ReadableIsAcceptable(config, q, children.node.children, rel[1..]);
    }
  }

  lemma {:induction false} RefusedSomewhere(config: Config, base: Path, children: Children) returns (rel: Path)
    requires Distinct(children) && !AllReadable(config, base, children)
    ensures Lookup(children, rel).Some? && Visited(config, base, rel)
    ensures !Acceptable(config, base + rel, Lookup(children, rel).value)
    decreases children
  {
    var q := base + [children.name];
    if Readable(config, q, children.node) {
      rel := RefusedSomewhere(config, base, children.rest);
      LookupNames(children.rest, rel);
    } else if Kept(config, q) && children.node.Dir? && !config.faulty(q) && !Unsafe(children.name) {
      var below := RefusedSomewhere(config, q, children.node.children);
      rel := [children.name] + below;
      assert rel[1..] == below && base + rel == q + below;
      assert base + rel[..|rel| - 1] == if |below| == 1 then q else q + below[..|below| - 1];
    } else {
      rel := [children.name];
      assert base + rel == q && q[|q| - 1] == children.name;
    }
  }

  /** A root is readable if and only if nothing that the walk gets to is refused. */
  lemma ReadableIff(config: Config, root: Children)
    requires Distinct(root)
    ensures AllReadable(config, [], root) <==>
            forall rel :: Lookup(root, rel).Some? && Visited(config, [], rel) ==>
                            Acceptable(config, rel, Lookup(root, rel).value)
  {
    if AllReadable(config, [], root) {
      forall rel | Lookup(root, rel).Some? &&
        Visited(config, [], rel) ensures Acceptable(config, rel, Lookup(root, rel).value) {
        ReadableIsAcceptable(config, [], root, rel);
        assert [] + rel == rel;
      }
    } else {
      var rel := RefusedSomewhere(config, [], root);
      assert [] + rel == rel;
    }
  }

  // ---- Paths as the walk spells them ---------------------------------------------------------

  function Join(p: Path): string
    requires p != []
  {
    if |p| == 1 then p[0] else p[0] + "/" + Join(p[1..])
  }

  predicate Plain(p: Path) {
    forall k :: 0 <= k < |p| ==> '/' !in p[k]
  }

  /** The test on spelled names: the same name, or the other one followed by a slash. */
  predicate AtOrUnder(name: string, top: string) {
    name == top || top + "/" <= name
  }

  lemma SlashComesFirst(a: string, b: string, s: string)
    requires '/' !in a && '/' !in b && a + "/" <= s && b + "/" <= s
    ensures a == b
  {
    assert s[|a|] == (a + "/")[|a|] == '/' && s[|b|] == (b + "/")[|b|] == '/';
    assert forall k :: 0 <= k < |a| ==> s[k] == a[k];
    assert forall k :: 0 <= k < |b| ==> s[k] == b[k];
    assert |a| == |b|;
  }

  /** A slash-free component followed by a slash can only be the first component. */
  lemma FirstComponent(a: string, x: string, q: Path)
    requires '/' !in a && q != [] && Plain(q) && a + "/" + x <= Join(q)
    ensures a == q[0] && |q| > 1 && x <= Join(q[1..])
  {
    var s, t := Join(q), a + "/" + x;
    assert t[..|a| + 1] == a + "/" && s[|a|] == t[|a|] == '/';
    if |q| > 1 {
      assert s == q[0] + "/" + Join(q[1..]);
      SlashComesFirst(a, q[0], s);
      assert x == t[|a| + 1..] && Join(q[1..]) == s[|a| + 1..];
    }
  }

  /** On slash-free components the spelled test is the prefix test used above. */
  lemma {:induction false} SpelledIsPrefix(p: Path, q: Path)
    requires p != [] && q != [] && Plain(p) && Plain(q)
    ensures AtOrUnder(Join(q), Join(p)) <==> p <= q
  {
    if |p| == 1 {
      if |q| > 1 {
        assert q[0] + "/" <= Join(q) && Join(q)[|q[0]|] == '/';
      }
      if p[0] + "/" <= Join(q) {
        assert p[0] + "/" + "" == p[0] + "/";
        FirstComponent(p[0], "", q);
      }
    } else {
      var p', a := p[1..], p[0];
      if |q| > 1 && q[0] == a {
        SpelledIsPrefix(p', q[1..]);
        assert Join(p) == a + "/" + Join(p') && Join(q) == a + "/" + Join(q[1..]);
        UnderShifts(a + "/", Join(q[1..]), Join(p'));
        assert p <= q <==> p' <= q[1..] by { Shifted(p, q); }
      } else {
        if AtOrUnder(Join(q), Join(p)) {
          assert a + "/" + Join(p') <= Join(q);
          FirstComponent(a, Join(p'), q);
        }
      }
    }
  }

  lemma UnderShifts(s: string, name: string, top: string)
    ensures AtOrUnder(s + name, s + top) <==> AtOrUnder(name, top)
  {
    assert (s + top) + "/" == s + (top + "/");
    if s + (top + "/") <= s + name {
      assert top + "/" == (s + (top + "/"))[|s|..] && name == (s + name)[|s|..];
    }
    if s + name == s + top {
      assert name == (s + name)[|s|..] && top == (s + top)[|s|..];
    }
  }

  lemma Shifted(p: Path, q: Path)
    requires |p| > 1 && |q| > 1 && p[0] == q[0]
    ensures p <= q <==> p[1..] <= q[1..]
  {
    assert p == [p[0]] + p[1..] && q == [q[0]] + q[1..];
  }
}
