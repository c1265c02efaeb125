/** Opening a path beneath a root one component at a time, without following links implicitly. */
module PathWalks {
  import opened Wrappers
  import opened Text
  import Sensitive

  /** A descriptor. */
  type Descriptor = nat

  datatype FileKind = RegularFile | Directory | OtherKind

  /** The filesystem as system calls see it, each answer free to differ from the one before: `moment`
      counts the calls. `None` is an error. */
  datatype FileSystem = FileSystem(
    isLink: (nat, Descriptor, string) -> Option<bool>,
    readLink: (nat, Descriptor, string) -> Option<string>,
    openAt: (nat, Descriptor, string, bool) -> Option<Descriptor>,
    kindOf: (nat, Descriptor) -> Option<FileKind>,
    insideRoot: (nat, string) -> Option<string>)

  const MAX_SYMLINK_HOPS: nat := 40

  // ----- Components -----

  /** The named components of a path; empty ones and `.` do not count. */
  function Kept(segments: seq<string>): seq<string>
  {
    if segments == [] then []
    else
      var rest := Kept(segments[1..]);
      if segments[0] == [] || segments[0] == "." then rest else [segments[0]] + rest
  }

  function Components(path: string): seq<string>
  {
    Kept(Sensitive.Segments(path))
  }

  /** One name in a directory, or `..`. */
  predicate Component(name: string)
  {
    name != [] && name != "." && '/' !in name
  }

  predicate AllComponents(names: seq<string>)
  {
    forall i :: 0 <= i < |names| ==> Component(names[i])
  }

  lemma {:induction false} KeptAreComponents(segments: seq<string>)
    requires forall i :: 0 <= i < |segments| ==> '/' !in segments[i]
    ensures AllComponents(Kept(segments))
  {
    if segments != [] { KeptAreComponents(segments[1..]); }
  }

  lemma ComponentsAre(path: string)
    ensures AllComponents(Components(path))
  {
    Sensitive.SegmentsHaveNoSlash(path);
    KeptAreComponents(Sensitive.Segments(path));
  }

  /** A segment that names a child or the parent directory. */
  predicate Counts(segment: string)
  {
    segment != "" && segment != "."
  }

  lemma {:induction false} KeptConcat(a: seq<string>, b: seq<string>)
    ensures Kept(a + b) == Kept(a) + Kept(b)
  {
    if a == [] {
      assert a + b == b;
    } else {
      assert (a + b)[0] == a[0] && (a + b)[1..] == a[1..] + b;
      KeptConcat(a[1..], b);
    }
  }

  lemma KeptOne(segment: string)
    ensures Kept([segment]) == if Counts(segment) then [segment] else []
  {
    assert [segment][1..] == [];
  }

  lemma {:induction false} KeptAreSelected(segments: seq<string>) returns (at: seq<nat>)
    ensures Selected(segments, Counts, Kept(segments), at)
    decreases |segments|
  {
    hide Selected, Kept;
    if segments == [] {
      KeptNone();
      SelectedNone(Counts);
      at := [];
    } else {
      var init, last := segments[..|segments| - 1], segments[|segments| - 1];
      at := KeptAreSelected(init);
      assert segments == init + [last];
      KeptConcat(init, [last]);
      KeptOne(last);
      SelectedMore(init, Counts, Kept(init), at, last);
      if Counts(last) {
        at := at + [|init|];
      } else {
        assert Kept(init) + [] == Kept(init);
      }
    }
  }

  lemma KeptNone()
    ensures Kept([]) == []
  {
  }

  /** The components of a path are, in order and each as often as it occurs, its segments between slashes
      except empty ones and `.`; every `..` is among them. */
  lemma ComponentsMean(path: string) returns (segments: seq<string>, slashes: string, at: seq<nat>)
    ensures |segments| == |slashes| + 1 && Spelled(segments, slashes) == path
    ensures forall i :: 0 <= i < |slashes| ==> slashes[i] == '/'
    ensures forall i :: 0 <= i < |segments| ==> '/' !in segments[i]
    ensures Selected(segments, segment => segment != "" && segment != ".", Components(path), at)
    ensures segments == Sensitive.Segments(path)
  {
    segments := Sensitive.Segments(path);
    slashes := SplitMeans(path, {'/'});
    at := KeptAreSelected(segments);
    forall i | 0 <= i < |segments|
      ensures '/' !in segments[i]
    {
      assert !Contains(segments[i], {'/'});
    }
  }

  /** Put the components of `path` in front of what is pending, in order. */
  method PushFront(pending: seq<string>, path: string) returns (pending': seq<string>)
    ensures pending' == Components(path) + pending
  {
    pending' := pending;
    var components := Components(path);
    var k := |components|;
    assert components[k..] == [];
    while k > 0
      invariant 0 <= k <= |components|
      invariant pending' == components[k..] + pending
    {
      k := k - 1;
      pending' := [components[k]] + pending';
      assert components[k..] == [components[k]] + components[k + 1..];
    }
    assert components[0..] == components;
  }

  // ----- Lexical normalisation -----

  /** The components after `..` has removed what precedes it; `None` when that climbs above the root. */
  function Normalise(components: seq<string>, names: seq<string>): Option<seq<string>>
    decreases |components|
  {
    if components == [] then Some(names)
    else if components[0] == ".." then
      if names == [] then None else Normalise(components[1..], names[..|names| - 1])
    else Normalise(components[1..], names + [components[0]])
  }

  function Depth(components: seq<string>): int
  {
    if components == [] then 0
    else Depth(components[..|components| - 1]) + (if components[|components| - 1] == ".." then -1 else 1)
  }

  /** Some prefix has more `..` than names. */
  ghost predicate Climbs(components: seq<string>, from: int)
  {
    exists k :: 0 <= k <= |components| && from + Depth(components[..k]) < 0
  }

  lemma {:induction false} DepthCons(c: string, rest: seq<string>)
    ensures Depth([c] + rest) == (if c == ".." then -1 else 1) + Depth(rest)
    decreases |rest|
  {
    var all := [c] + rest;
    if rest == [] {
      assert all[..0] == [];
    } else {
      assert all[..|all| - 1] == [c] + rest[..|rest| - 1];
      DepthCons(c, rest[..|rest| - 1]);
    }
  }

  lemma ClimbsCons(c: string, rest: seq<string>, from: nat)
    ensures Climbs([c] + rest, from) <==> Climbs(rest, from + (if c == ".." then -1 else 1))
  {
    var all, next := [c] + rest, from + (if c == ".." then -1 else 1);
    if Climbs(all, from) {
      var k :| 0 <= k <= |all| && from + Depth(all[..k]) < 0;
      assert k > 0;
      assert all[..k] == [c] + rest[..k - 1];
      DepthCons(c, rest[..k - 1]);
    }
    if Climbs(rest, next) {
      var k :| 0 <= k <= |rest| && next + Depth(rest[..k]) < 0;
      assert all[..k + 1] == [c] + rest[..k];
      DepthCons(c, rest[..k]);
    }
  }

  /** Normalisation fails exactly when some prefix climbs above where it started. */
  lemma {:induction false} NormaliseIff(components: seq<string>, names: seq<string>)
    ensures Normalise(components, names).None? <==> Climbs(components, |names|)
    decreases |components|
  {
    if components == [] {
      assert components[..0] == [];
    } else {
      assert components == [components[0]] + components[1..];
      ClimbsCons(components[0], components[1..], |names|);
      if components[0] == ".." {
        if names == [] {
          assert components[1..][..0] == [];
        } else {
          NormaliseIff(components[1..], names[..|names| - 1]);
        }
      } else {
        NormaliseIff(components[1..], names + [components[0]]);
      }
    }
  }

  /** How many segments name the parent directory, and how many a child. */
  function Ups(segments: seq<string>): nat
  {
    multiset(segments)[".."]
  }

  function Downs(segments: seq<string>): int
  {
    |segments| - multiset(segments)[""] - multiset(segments)["."] - multiset(segments)[".."]
  }

  /** Some prefix of the segments goes up more often than down. */
  ghost predicate ClimbsOut(segments: seq<string>)
  {
    exists k :: 0 <= k <= |segments| && Ups(segments[..k]) > Downs(segments[..k])
  }

  lemma {:induction false} DepthMeans(segments: seq<string>)
    ensures Depth(Kept(segments)) == Downs(segments) - Ups(segments)
    decreases |segments|
  {
    if segments != [] {
      var init, last := segments[..|segments| - 1], segments[|segments| - 1];
      assert segments == init + [last];
      DepthMeans(init);
      KeptConcat(init, [last]);
      KeptOne(last);
      assert multiset(segments) == multiset(init) + multiset{last};
      if Counts(last) {
        var all := Kept(init) + [last];
        assert all[..|all| - 1] == Kept(init);
      } else {
        assert Kept(init) + [] == Kept(init);
      }
    }
  }

  /** Every prefix of the components is what is kept of a prefix of the segments. */
  lemma {:induction false} KeptPrefix(segments: seq<string>, j: nat) returns (k: nat)
    requires j <= |Kept(segments)|
    ensures k <= |segments| && Kept(segments[..k]) == Kept(segments)[..j]
    decreases |segments|
  {
    if j == |Kept(segments)| {
      k := |segments|;
      assert segments[..k] == segments && Kept(segments)[..j] == Kept(segments);
    } else {
      var init, last := segments[..|segments| - 1], segments[|segments| - 1];
      assert segments == init + [last];
      KeptConcat(init, [last]);
      KeptOne(last);
      k := KeptPrefix(init, j);
      assert init[..k] == segments[..k];
    }
  }

  /** The components climb above where they start exactly when the segments do. */
  lemma ClimbsMeans(segments: seq<string>)
    ensures Climbs(Kept(segments), 0) <==> ClimbsOut(segments)
  {
    var kept := Kept(segments);
    if Climbs(kept, 0) {
      var j :| 0 <= j <= |kept| && 0 + Depth(kept[..j]) < 0;
      var k := KeptPrefix(segments, j);
      DepthMeans(segments[..k]);
    }
    if ClimbsOut(segments) {
      var k :| 0 <= k <= |segments| && Ups(segments[..k]) > Downs(segments[..k]);
      DepthMeans(segments[..k]);
      assert segments == segments[..k] + segments[k..];
      KeptConcat(segments[..k], segments[k..]);
      assert kept[..|Kept(segments[..k])|] == Kept(segments[..k]);
    }
  }

  /** Normalising a path is normalising its beginning and then the rest from there. */
  lemma {:induction false} NormaliseConcat(a: seq<string>, b: seq<string>, names: seq<string>)
    ensures Normalise(a + b, names)
            == var middle := Normalise(a, names); if middle.None? then None else Normalise(b, middle.value)
    decreases |a|
  {
    if a == [] {
      assert a + b == b;
    } else {
      assert (a + b)[0] == a[0] && (a + b)[1..] == a[1..] + b;
      if a[0] == ".." {
        if names != [] { NormaliseConcat(a[1..], b, names[..|names| - 1]); }
      } else {
        NormaliseConcat(a[1..], b, names + [a[0]]);
      }
    }
  }

  lemma NormaliseOne(c: string, names: seq<string>)
    ensures Normalise([c], names)
            == if c != ".." then Some(names + [c]) else if names == [] then None else Some(names[..|names| - 1])
  {
    assert [c][1..] == [];
  }

  // ----- Links -----

  /** A link that was read: where it stood among the components, when and in which directory it was looked
      at, its target, and, for an absolute target, that target relative to the root. */
  datatype Followed = Followed(at: nat, moment: nat, parent: Descriptor, target: string, inside: Option<string>)

  predicate Absolute(path: string)
  {
    StartsWith(path, "/")
  }

  /** The components with a link replaced by its target; an absolute target also replaces what led to it. */
  function Spliced(list: seq<string>, link: Followed): seq<string>
  {
    if link.at >= |list| then list
    else if Absolute(link.target) then
      Components(if link.inside.Some? then link.inside.value else []) + list[link.at + 1..]
    else list[..link.at] + Components(link.target) + list[link.at + 1..]
  }

  /** The components with every link replaced, in the order in which they were read. */
  function Expanded(components: seq<string>, links: seq<Followed>): seq<string>
  {
    if links == [] then components
    else Spliced(Expanded(components, links[..|links| - 1]), links[|links| - 1])
  }

  /** The component was seen to be a link and read, and an absolute target was found inside the root. */
  predicate WasLink(fs: FileSystem, list: seq<string>, link: Followed)
  {
    && link.at < |list|
    && fs.isLink(link.moment, link.parent, list[link.at]) == Some(true)
    && fs.readLink(link.moment + 1, link.parent, list[link.at]) == Some(link.target)
    && (Absolute(link.target) ==> link.inside.Some? && fs.insideRoot(link.moment + 2, link.target) == link.inside)
  }

  predicate AllLinks(fs: FileSystem, components: seq<string>, links: seq<Followed>)
  {
    forall i :: 0 <= i < |links| ==> WasLink(fs, Expanded(components, links[..i]), links[i])
  }

  lemma OneMoreLink(fs: FileSystem, components: seq<string>, links: seq<Followed>, link: Followed)
    requires AllLinks(fs, components, links) && WasLink(fs, Expanded(components, links), link)
    ensures AllLinks(fs, components, links + [link])
    ensures Expanded(components, links + [link]) == Spliced(Expanded(components, links), link)
  {
    hide WasLink;
    var more := links + [link];
    assert more[..|links|] == links;
    forall i | 0 <= i < |more|
      ensures WasLink(fs, Expanded(components, more[..i]), more[i])
    {
      if i < |links| { assert more[..i] == links[..i]; }
    }
  }

  // ----- The walk -----

  /** A directory or object opened so far and the name it was reached by. */
  datatype Opened = Opened(descriptor: Descriptor, name: string)

  /** The system call that opened `name`, and nothing further, in the directory `parent`, never following a
      link; `directory` says that anything but a directory was refused. */
  datatype OpenCall = OpenCall(moment: nat, parent: Descriptor, name: string, directory: bool, descriptor: Descriptor)

  /** The call was made, right after `name` was seen not to be a link. */
  predicate Happened(fs: FileSystem, call: OpenCall)
  {
    && call.moment > 0
    && fs.isLink(call.moment - 1, call.parent, call.name) == Some(false)
    && fs.openAt(call.moment, call.parent, call.name, call.directory) == Some(call.descriptor)
  }

  /** From the root on, each descriptor was opened as a single named child of the one before, and every
      one but the last as a directory. */
  predicate Chained(fs: FileSystem, root: Descriptor, chain: seq<Opened>, calls: seq<OpenCall>)
  {
    && chain != [] && chain[0].descriptor == root && |calls| == |chain| - 1
    && (forall i :: 0 <= i < |calls| ==> Link(fs, chain[i], chain[i + 1], calls[i]))
    && (forall i :: 0 <= i < |calls| - 1 ==> calls[i].directory)
  }

  predicate Link(fs: FileSystem, parent: Opened, child: Opened, call: OpenCall)
  {
    && Happened(fs, call)
    && call.parent == parent.descriptor && call.name == child.name && call.descriptor == child.descriptor
    && Component(child.name) && child.name != ".."
  }

  function Names(chain: seq<Opened>): (names: seq<string>)
    requires chain != []
    ensures |names| == |chain| - 1
    ensures forall i :: 0 <= i < |names| ==> names[i] == chain[i + 1].name
  {
    seq(|chain| - 1, i requires 0 <= i < |chain| - 1 => chain[i + 1].name)
  }

  lemma LooksRight(fs: FileSystem, call: OpenCall)
    requires call.moment > 0
    requires fs.isLink(call.moment - 1, call.parent, call.name) == Some(false)
    requires fs.openAt(call.moment, call.parent, call.name, call.directory) == Some(call.descriptor)
    ensures Happened(fs, call)
  {
  }

  lemma ChainShrinks(fs: FileSystem, root: Descriptor, chain: seq<Opened>, calls: seq<OpenCall>)
    requires |chain| > 1 && Chained(fs, root, chain, calls)
    ensures Chained(fs, root, chain[..|chain| - 1], calls[..|calls| - 1])
    ensures Names(chain[..|chain| - 1]) == Names(chain)[..|Names(chain)| - 1]
    ensures |calls| > 1 ==> calls[|calls| - 2].directory
  {
  }

  lemma ChainGrows(fs: FileSystem, root: Descriptor, chain: seq<Opened>, calls: seq<OpenCall>, call: OpenCall)
    requires Chained(fs, root, chain, calls) && Happened(fs, call)
    requires calls != [] ==> calls[|calls| - 1].directory
    requires call.parent == chain[|chain| - 1].descriptor && Component(call.name) && call.name != ".."
    ensures Chained(fs, root, chain + [Opened(call.descriptor, call.name)], calls + [call])
    ensures Names(chain + [Opened(call.descriptor, call.name)]) == Names(chain) + [call.name]
  {
  }

  datatype WalkResult = Reached(chain: seq<Opened>) | OutsideRoot | TooManyLinks | Unreadable

  lemma OnlyRoot(fs: FileSystem, root: Descriptor)
    ensures Chained(fs, root, [Opened(root, [])], []) && Names([Opened(root, [])]) == []
  {
  }

  lemma FirstComponent(pending: seq<string>)
    requires pending != [] && AllComponents(pending)
    ensures Component(pending[0]) && AllComponents(pending[1..])
  {
  }

  lemma ComponentsBefore(path: string, pending: seq<string>)
    requires AllComponents(pending)
    ensures AllComponents(Components(path) + pending)
  {
    ComponentsAre(path);
  }

  /** The call before `moment` was about `name` in `parent` and failed. */
  predicate CallFailed(fs: FileSystem, moment: nat, parent: Descriptor, name: string, directory: bool)
  {
    && moment > 0
    && (|| fs.isLink(moment - 1, parent, name).None?
        || fs.readLink(moment - 1, parent, name).None?
        || fs.openAt(moment - 1, parent, name, directory).None?)
  }

  /** The three calls before `moment` saw `name` to be a link to an absolute path that is not inside the root. */
  predicate LeadsOut(fs: FileSystem, moment: nat, parent: Descriptor, name: string)
  {
    && moment > 2
    && fs.isLink(moment - 3, parent, name) == Some(true)
    && var target := fs.readLink(moment - 2, parent, name);
       target.Some? && Absolute(target.value) && fs.insideRoot(moment - 1, target.value).None?
  }

  /** Where a walk stopped: the directories opened so far, how, the links read, and how many of the
      components, with the links replaced by their targets, led there. */
  datatype Stop = Stop(chain: seq<Opened>, calls: seq<OpenCall>, links: seq<Followed>, at: nat, moment: nat)

  /** What a walk over `components` amounts to. With the links replaced by their targets, what was opened is
      the lexical normalisation of the components taken. The walk is complete, or the next component climbs
      above the root or is a link that leads out, or one link too many, or the last call about it failed. */
  ghost predicate Walked(fs: FileSystem, root: Descriptor, components: seq<string>, result: WalkResult, stop: Stop)
  {
    var list := Expanded(components, stop.links);
    && AllLinks(fs, components, stop.links) && |stop.links| <= MAX_SYMLINK_HOPS
    && stop.at <= |list|
    && Chained(fs, root, stop.chain, stop.calls) && Normalise(list[..stop.at], []) == Some(Names(stop.chain))
    && if result.Reached? then stop.at == |list| && result.chain == stop.chain
       else stop.at < |list| && StoppedOn(fs, list, result, stop)
  }

  predicate StoppedOn(fs: FileSystem, list: seq<string>, result: WalkResult, stop: Stop)
    requires stop.at < |list| && stop.chain != []
  {
    var parent, name := stop.chain[|stop.chain| - 1].descriptor, list[stop.at];
    match result
    case Reached(_) => false
    case OutsideRoot => if name == ".." then |stop.chain| == 1 else LeadsOut(fs, stop.moment, parent, name)
    case TooManyLinks =>
      |stop.links| == MAX_SYMLINK_HOPS && stop.moment > 0 && fs.isLink(stop.moment - 1, parent, name) == Some(true)
    case Unreadable => CallFailed(fs, stop.moment, parent, name, stop.at + 1 < |list|)
  }

  /** A walk that goes all the way took the normalised path; one that is refused without a link leading out
      was asked for a path that climbs above the root. */
  lemma WalkedMeans(fs: FileSystem, root: Descriptor, components: seq<string>, result: WalkResult, stop: Stop)
    requires Walked(fs, root, components, result, stop)
    ensures var list := Expanded(components, stop.links);
            && (result.Reached? ==> Normalise(list, []) == Some(Names(result.chain)))
            && (result.OutsideRoot? && list[stop.at] == ".." ==> Climbs(list, 0))
  {
    hide Chained, Expanded, AllLinks, Normalise, Climbs;
    var list := Expanded(components, stop.links);
    if result.Reached? {
      assert list[..stop.at] == list;
    } else if result.OutsideRoot? && list[stop.at] == ".." {
      var done, rest := list[..stop.at], list[stop.at + 1..];
      assert list == done + [".."] + rest;
      NormaliseConcat(done, [".."], []);
      NormaliseOne("..", Names(stop.chain));
      NormaliseConcat(done + [".."], rest, []);
      NormaliseIff(list, []);
    }
  }
  /** The component after `done` is a link: splice its target in. */
  lemma SpliceHere(done: seq<string>, component: string, rest: seq<string>, link: Followed)
    requires link.at == |done| && (Absolute(link.target) ==> link.inside.Some?)
    ensures Spliced(done + ([component] + rest), link)
            == if Absolute(link.target) then Components(link.inside.value) + rest
               else done + (Components(link.target) + rest)
  {
    hide Components;
    var list := done + ([component] + rest);
    assert list[|done| + 1..] == rest && list[..|done|] == done;
  }

  /** The walk. It ends for any filesystem, by links left to follow and then components left. */
  method Walk(fs: FileSystem, root: Descriptor, start: nat, components: seq<string>)
    returns (result: WalkResult, moment: nat, ghost stop: Stop)
    requires AllComponents(components)
    ensures Walked(fs, root, components, result, stop) && stop.moment == moment
  {
    hide Link, Happened, Component, Components, StartsWith, Absolute, AllComponents, Chained, Normalise, Expanded,
         Spliced, WasLink, AllLinks, CallFailed, LeadsOut;
    OnlyRoot(fs, root);
    NothingRead(fs, components);
    var chain, pending, hops := [Opened(root, [])], components, 0;
    ghost var done, calls, links := [], [], [];
    moment := start;
    while pending != []
      invariant AllComponents(pending) && Chained(fs, root, chain, calls)
      invariant chain != [] && |calls| == |chain| - 1 && chain[0] == Opened(root, [])
      invariant pending != [] && calls != [] ==> calls[|calls| - 1].directory
      invariant hops == |links| <= MAX_SYMLINK_HOPS && AllLinks(fs, components, links)
      invariant done + pending == Expanded(components, links) && Normalise(done, []) == Some(Names(chain))
      decreases MAX_SYMLINK_HOPS - hops, |pending|
    {
      ghost var list := Expanded(components, links);
      var component := pending[0];
      FirstComponent(pending);
      assert pending == [component] + pending[1..] && list[|done|] == component && list[..|done|] == done;
      pending := pending[1..];
      assert done + [component] + pending == list;
      NormaliseConcat(done, [component], []);
      NormaliseOne(component, Names(chain));
      if component == ".." {
        if |chain| == 1 {
          return OutsideRoot, moment, Stop(chain, calls, links, |done|, moment);
        }
        ChainShrinks(fs, root, chain, calls);
        chain, calls, done := chain[..|chain| - 1], calls[..|calls| - 1], done + [component];
        continue;
      }
      var parent := chain[|chain| - 1].descriptor;
      var link := fs.isLink(moment, parent, component);
      moment := moment + 1;
      if link.None? {
        FailedOn(fs, moment, parent, component, pending != []);
        return Unreadable, moment, Stop(chain, calls, links, |done|, moment);
      }
      if link.value {
        if hops == MAX_SYMLINK_HOPS {
          return TooManyLinks, moment, Stop(chain, calls, links, |done|, moment);
        }
        hops := hops + 1;
        var target := fs.readLink(moment, parent, component);
        moment := moment + 1;
        if target.None? {
          FailedOn(fs, moment, parent, component, pending != []);
          return Unreadable, moment, Stop(chain, calls, links, |done|, moment);
        }
        var relative, inside := target.value, None;
        if Absolute(target.value) {
          inside := fs.insideRoot(moment, target.value);
          moment := moment + 1;
          if inside.None? {
            OutOn(fs, moment, parent, component);
            return OutsideRoot, moment, Stop(chain, calls, links, |done|, moment);
          }
          relative := inside.value;
          assert chain[..1] == [Opened(root, [])];
          chain, calls := chain[..1], [];
        }
        ghost var seen := if inside.Some? then moment - 3 else moment - 2;
        ghost var read := Followed(|done|, seen, parent, target.value, inside);
        LinkOn(fs, list, read);
        SpliceHere(done, component, pending, read);
        OneMoreLink(fs, components, links, read);
        assert done + ([component] + pending) == list;
        links := links + [read];
        NothingRead(fs, components);
        done := if inside.Some? then [] else done;
        ComponentsBefore(relative, pending);
        pending := PushFront(pending, relative);
        continue;
      }
      var descriptor := fs.openAt(moment, parent, component, pending != []);
      moment := moment + 1;
      if descriptor.None? {
        FailedOn(fs, moment, parent, component, pending != []);
        return Unreadable, moment, Stop(chain, calls, links, |done|, moment);
      }
      ghost var call := OpenCall(moment - 1, parent, component, pending != [], descriptor.value);
      LooksRight(fs, call);
      ChainGrows(fs, root, chain, calls, call);
      calls, done := calls + [call], done + [component];
      chain := chain + [Opened(descriptor.value, component)];
    }
    assert done + [] == done && done[..|done|] == done;
    return Reached(chain), moment, Stop(chain, calls, links, |done|, moment);
  }

  lemma NothingRead(fs: FileSystem, components: seq<string>)
    ensures AllLinks(fs, components, []) && Expanded(components, []) == [] + components
    ensures Normalise([], []) == Some([])
  {
  }

  lemma FailedOn(fs: FileSystem, moment: nat, parent: Descriptor, name: string, directory: bool)
    requires moment > 0
    requires fs.isLink(moment - 1, parent, name).None? || fs.readLink(moment - 1, parent, name).None?
             || fs.openAt(moment - 1, parent, name, directory).None?
    ensures CallFailed(fs, moment, parent, name, directory)
  {
  }

  lemma OutOn(fs: FileSystem, moment: nat, parent: Descriptor, name: string)
    requires moment > 2 && fs.isLink(moment - 3, parent, name) == Some(true)
    requires fs.readLink(moment - 2, parent, name).Some?
    requires var target := fs.readLink(moment - 2, parent, name).value;
             Absolute(target) && fs.insideRoot(moment - 1, target).None?
    ensures LeadsOut(fs, moment, parent, name)
  {
  }

  lemma LinkOn(fs: FileSystem, list: seq<string>, link: Followed)
    requires link.at < |list| && fs.isLink(link.moment, link.parent, list[link.at]) == Some(true)
    requires fs.readLink(link.moment + 1, link.parent, list[link.at]) == Some(link.target)
    requires Absolute(link.target) <==> link.inside.Some?
    requires link.inside.Some? ==> fs.insideRoot(link.moment + 2, link.target) == link.inside
    ensures WasLink(fs, list, link)
  {
  }

  // ----- Without links -----

  /** No name is ever seen to be a link. */
  ghost predicate LinkFree(fs: FileSystem)
  {
    forall moment, parent, name :: fs.isLink(moment, parent, name) != Some(true)
  }

  lemma SomeLink(fs: FileSystem, components: seq<string>, links: seq<Followed>)
    requires links != [] && AllLinks(fs, components, links)
    ensures !LinkFree(fs)
  {
    assert WasLink(fs, Expanded(components, links[..0]), links[0]);
  }

  /** Without links, and whatever else changes between calls, the path taken is the lexical normalisation of
      what was asked for, and it is refused as outside the root exactly when a prefix climbs above it, unless
      a call about one of its components fails first. */
  lemma LinkFreeWalk(fs: FileSystem, root: Descriptor, components: seq<string>, result: WalkResult, stop: Stop)
    requires LinkFree(fs) && Walked(fs, root, components, result, stop)
    ensures stop.links == [] && !result.TooManyLinks?
    ensures result.Reached? ==> Normalise(components, []) == Some(Names(result.chain))
    ensures !result.Unreadable? ==> (result.OutsideRoot? <==> Climbs(components, 0))
  {
    hide Chained, Climbs, CallFailed, Normalise;
    if stop.links != [] { SomeLink(fs, components, stop.links); }
    WalkedMeans(fs, root, components, result, stop);
    NormaliseIff(components, []);
  }

  // ----- Preparing an object -----

  datatype Prepared = Prepared(descriptor: Descriptor, path: string, sensitive: bool)

  function JoinPath(root: string, names: seq<string>): string
  {
    if names == [] then root
    else
      var parent, name := JoinPath(root, names[..|names| - 1]), names[|names| - 1];
      if parent == [] || parent[|parent| - 1] == '/' then parent + name else parent + "/" + name
  }

  /** The components a request asks for; an absolute request must be inside the root. */
  function Asked(fs: FileSystem, requested: string): Option<seq<string>>
  {
    if !Absolute(requested) then Some(Components(requested))
    else
      var inside := fs.insideRoot(0, requested);
      if inside.None? then None else Some(Components(inside.value))
  }

  /** Open `requested` beneath `root`: the walk is over what was requested, what is classified is the path it
      took, and what will be read is the descriptor it ended with. */
  method Prepare(
    fs: FileSystem, rootPath: string, root: Descriptor, requested: string, kind: FileKind, patterns: seq<string>)
    returns (prepared: Option<Prepared>, walk: WalkResult, moment: nat, ghost stop: Stop)
    ensures var asked := Asked(fs, requested);
            if asked.None? then walk.OutsideRoot? else Walked(fs, root, asked.value, walk, stop)
    ensures prepared.Some? <==>
              walk.Reached? && fs.kindOf(moment, walk.chain[|walk.chain| - 1].descriptor) == Some(kind)
    ensures prepared.Some? ==>
              && prepared.value.descriptor == walk.chain[|walk.chain| - 1].descriptor
              && prepared.value.path == JoinPath(rootPath, Names(walk.chain))
              && (prepared.value.sensitive <==> Sensitive.Matches(patterns, prepared.value.path))
    ensures LinkFree(fs) && !walk.Unreadable? && !StartsWith(requested, "/") ==>
              (walk.OutsideRoot? <==> ClimbsOut(Sensitive.Segments(requested)))
    ensures LinkFree(fs) && !walk.Unreadable? && StartsWith(requested, "/") ==>
              var inside := fs.insideRoot(0, requested);
              (walk.OutsideRoot? <==> inside.None? || ClimbsOut(Sensitive.Segments(inside.value)))
  {
    hide Components, Walked, Names, JoinPath, LinkFree, ClimbsOut;
    walk, moment, stop := OutsideRoot, 1, Stop([], [], [], 0, 0);
    var relative := requested;
    if Absolute(requested) {
      var inside := fs.insideRoot(0, requested);
      if inside.None? {
        return None, walk, moment, stop;
      }
      relative := inside.value;
    }
    var pending := PushFront([], relative);
    ComponentsAre(relative);
    assert pending == Components(relative);
    walk, moment, stop := Walk(fs, root, 1, pending);
    ReachedSome(fs, root, pending, walk, stop);
    LinkFreeRequest(fs, root, relative, walk, stop);
    if !walk.Reached? {
      return None, walk, moment, stop;
    }
    var last := walk.chain[|walk.chain| - 1].descriptor;
    var found := fs.kindOf(moment, last);
    if found != Some(kind) {
      return None, walk, moment, stop;
    }
    var path := JoinPath(rootPath, Names(walk.chain));
    return Some(Prepared(last, path, Sensitive.Matches(patterns, path))), walk, moment, stop;
  }

  lemma LinkFreeRequest(fs: FileSystem, root: Descriptor, path: string, result: WalkResult, stop: Stop)
    requires Walked(fs, root, Components(path), result, stop)
    ensures LinkFree(fs) && !result.Unreadable? ==> (result.OutsideRoot? <==> ClimbsOut(Sensitive.Segments(path)))
  {
    hide Walked, LinkFree, ClimbsOut, Climbs;
    ClimbsMeans(Sensitive.Segments(path));
    if LinkFree(fs) { LinkFreeWalk(fs, root, Components(path), result, stop); }
  }

  /** The path of an object is the root, a slash unless the root ends in one, and the names with slashes between. */
  lemma {:induction false} JoinPathMeans(root: string, names: seq<string>)
    requires root != [] && forall i :: 0 <= i < |names| ==> names[i] != [] && '/' !in names[i]
    ensures JoinPath(root, names)
            == if names == [] then root
               else (if root[|root| - 1] == '/' then root else root + "/") + Join(names, "/")
    decreases |names|
  {
    if names != [] {
      var init, last := names[..|names| - 1], names[|names| - 1];
      JoinPathMeans(root, init);
      assert names == init + [last];
      if init == [] {
        assert names == [last];
      } else {
        JoinSnoc(init, last, "/");
        JoinEnds(init);
        var start := if root[|root| - 1] == '/' then root else root + "/";
        var parent := start + Join(init, "/");
        assert parent[|parent| - 1] == Join(init, "/")[|Join(init, "/")| - 1];
        assert parent + "/" + last == start + (Join(init, "/") + "/" + last);
      }
    }
  }

  lemma {:induction false} JoinSnoc(pieces: seq<string>, piece: string, separator: string)
    requires pieces != []
    ensures Join(pieces + [piece], separator) == Join(pieces, separator) + separator + piece
  {
    var all := pieces + [piece];
    if |pieces| == 1 {
      assert all[1..] == [piece];
    } else {
      assert all[1..] == pieces[1..] + [piece];
      JoinSnoc(pieces[1..], piece, separator);
      assert Join(all, separator)
          == pieces[0] + separator + (Join(pieces[1..], separator) + separator + piece);
    }
  }

  lemma {:induction false} JoinEnds(names: seq<string>)
    requires names != [] && forall i :: 0 <= i < |names| ==> names[i] != [] && '/' !in names[i]
    ensures var path := Join(names, "/"); path != [] && path[|path| - 1] != '/'
  {
    if |names| == 1 {
      assert names[0][|names[0]| - 1] in names[0];
    } else {
      JoinEnds(names[1..]);
    }
  }

  lemma ReachedSome(fs: FileSystem, root: Descriptor, components: seq<string>, result: WalkResult, stop: Stop)
    requires Walked(fs, root, components, result, stop)
    ensures result.Reached? ==> result.chain != []
  {
  }

  /** A request without links is refused as outside the root exactly when a prefix of it climbs above. */
  lemma RefusedIffClimbs(components: seq<string>)
    ensures Normalise(components, []) == None <==> Climbs(components, 0)
  {
    NormaliseIff(components, []);
  }
}
