/** The build's chunk classifier: `manualChunks` maps a module id (its file
    path) to the name of the output chunk it is bundled into, or to nothing,
    leaving the choice to the bundler. Each test is a substring test and the
    first one that matches decides. */
module Chunks {
  import opened Wrappers
  import opened Strings

  /** The chunks the classifier names. */
  datatype Chunk =
    | ReactVendor | Framer | RadixUi | Lucide | Tabler | Router | ThreeJs | Query | Vendor
    | WorkPage | Pages | Sections | UiComponents
  {
    /** The chunk's name in the build output. */
    function Name(): string
    {
      match this
      case ReactVendor => "react-vendor"
      case Framer => "framer"
      case RadixUi => "radix-ui"
      case Lucide => "lucide"
      case Tabler => "tabler"
      case Router => "router"
      case ThreeJs => "three-js"
      case Query => "query"
      case Vendor => "vendor"
      case WorkPage => "work-page"
      case Pages => "pages"
      case Sections => "sections"
      case UiComponents => "ui-components"
    }

    /** A chunk for third-party code under node_modules. */
    predicate IsVendor()
    {
      !(WorkPage? || Pages? || Sections? || UiComponents?)
    }
  }

  /** The outcome of each package-name test `manualChunks` applies to a
      node_modules path. */
  datatype Mentions = Mentions(
    react: bool, reactDom: bool, framer: bool, radix: bool, lucide: bool,
    tabler: bool, router: bool, three: bool, reactThree: bool, query: bool)

  /** The package-name tests applied to `id`. */
  function MentionsOf(id: string): Mentions
  {
    Mentions(
      Contains(id, "react"), Contains(id, "react-dom"), Contains(id, "framer-motion"),
      Contains(id, "@radix-ui"), Contains(id, "lucide-react"), Contains(id, "@tabler/icons-react"),
      Contains(id, "react-router"), Contains(id, "three"), Contains(id, "@react-three"),
      Contains(id, "@tanstack/react-query"))
  }

  /** The vendor chunk the tests pick, first match in source order. */
  function VendorGroupOf(m: Mentions): Chunk
  {
    if m.react || m.reactDom then ReactVendor
    else if m.framer then Framer
    else if m.radix then RadixUi
    else if m.lucide then Lucide
    else if m.tabler then Tabler
    else if m.router then Router
    else if m.three || m.reactThree then ThreeJs
    else if m.query then Query
    else Vendor
  }

  /** The vendor group of a module under node_modules. */
  function VendorGroup(id: string): Chunk
  {
    VendorGroupOf(MentionsOf(id))
  }

  /** The chunk of an application module, if its path names one. */
  function AppGroup(id: string): Option<Chunk>
  {
    if Contains(id, "src/pages/Work.tsx") then Some(WorkPage)
    else if Contains(id, "src/pages/") then Some(Pages)
    else if Contains(id, "src/components/sections/") then Some(Sections)
    else if Contains(id, "src/components/ui/") then Some(UiComponents)
    else None
  }

  /** `manualChunks` as written. */
  function ManualChunks(id: string): Option<Chunk>
  {
    if Contains(id, "node_modules") then Some(VendorGroup(id)) else AppGroup(id)
  }

  /** Every module under node_modules gets a vendor chunk: never an
      application chunk, never nothing. */
  lemma NodeModulesGetVendorChunk(id: string)
    requires Contains(id, "node_modules")
    ensures ManualChunks(id).Some? && ManualChunks(id).value.IsVendor()
  {
  }

  /** Every node_modules module whose path mentions "react" goes to "react-vendor". */
  lemma ReactGoesToReactVendor(id: string)
    requires Contains(id, "node_modules") && Contains(id, "react")
    ensures ManualChunks(id) == Some(ReactVendor)
  {
  }

  /** `s` mentions `sub` whenever it mentions a string starting with `sub`. */
  lemma MentionsPrefix(s: string, longer: string, sub: string)
    requires Contains(s, longer) && sub <= longer
    ensures Contains(s, sub)
  {
    assert sub <= longer[0..];
    ContainsTransitive(s, longer, sub);
  }

  /** What the package names imply about each other: every one of these
      names contains "react". */
  predicate ReactImplied(m: Mentions)
  {
    (m.lucide || m.tabler || m.router || m.reactThree || m.query) ==> m.react
  }

  /** A path that mentions `name` mentions "react" when `name` does at `at`. */
  lemma MentionsReact(id: string, name: string, at: nat)
    requires at <= |name| && "react" <= name[at..]
    ensures Contains(id, name) ==> Contains(id, "react")
  {
    if Contains(id, name) {
      ContainsTransitive(id, name, "react");
    }
  }

  /** The tests on any path respect the containments between the names. */
  lemma MentionsOfImpliesReact(id: string)
    ensures ReactImplied(MentionsOf(id))
  {
    MentionsReact(id, "lucide-react", 7);
    MentionsReact(id, "@tabler/icons-react", 14);
    MentionsReact(id, "react-router", 0);
    MentionsReact(id, "@react-three", 1);
    MentionsReact(id, "@tanstack/react-query", 10);
  }

  /** Under the first-match order as written, consistent tests never pick
      "lucide", "tabler", "router" or "query". */
  lemma DeadGroupsOf(m: Mentions)
    requires ReactImplied(m)
    ensures VendorGroupOf(m) !in {Lucide, Tabler, Router, Query}
  {
  }

  /** As written, the "lucide", "tabler", "router" and "query" chunks are
      never produced: each of their package names contains "react", so the
      first test has already sent the module to "react-vendor". */
  lemma DeadVendorChunks(id: string)
    ensures ManualChunks(id) != Some(Lucide)
    ensures ManualChunks(id) != Some(Tabler)
    ensures ManualChunks(id) != Some(Router)
    ensures ManualChunks(id) != Some(Query)
  {
    MentionsOfImpliesReact(id);
    DeadGroupsOf(MentionsOf(id));
  }

  /** The Work page gets its own chunk although its path also matches the
      general pages test: the more specific test comes first. */
  lemma WorkPageChunk(id: string)
    requires !Contains(id, "node_modules") && Contains(id, "src/pages/Work.tsx")
    ensures ManualChunks(id) == Some(WorkPage)
    ensures Contains(id, "src/pages/")
  {
    MentionsPrefix(id, "src/pages/Work.tsx", "src/pages/");
  }

  /** An application module is left to the bundler exactly when its path
      names none of the four source folders. */
  lemma UnmatchedLeftToBundler(id: string)
    requires !Contains(id, "node_modules")
    ensures ManualChunks(id).None? <==>
              !Contains(id, "src/pages/") && !Contains(id, "src/components/sections/") &&
              !Contains(id, "src/components/ui/")
  {
    if Contains(id, "src/pages/Work.tsx") {
      MentionsPrefix(id, "src/pages/Work.tsx", "src/pages/");
    }
  }

  /** Corrected: the catch-all "react" test moved after the specific
      package tests, so each package gets the chunk its test names. */
  function VendorGroupReorderedOf(m: Mentions): Chunk
  {
    if m.framer then Framer
    else if m.radix then RadixUi
    else if m.lucide then Lucide
    else if m.tabler then Tabler
    else if m.router then Router
    else if m.three || m.reactThree then ThreeJs
    else if m.query then Query
    else if m.react || m.reactDom then ReactVendor
    else Vendor
  }

  /** The reordered vendor group of a module under node_modules. */
  function VendorGroupReordered(id: string): Chunk
  {
    VendorGroupReorderedOf(MentionsOf(id))
  }

  /** `manualChunks` with the vendor tests reordered. */
  function ManualChunksReordered(id: string): Option<Chunk>
  {
    if Contains(id, "node_modules") then Some(VendorGroupReordered(id)) else AppGroup(id)
  }

  /** `s` does not mention `sub` if one of `sub`'s characters never occurs in `s`. */
  lemma MissingCharacter(s: string, sub: string, k: nat)
    requires k < |sub|
    requires forall i :: 0 <= i < |s| ==> s[i] != sub[k]
    ensures !Contains(s, sub)
  {
    forall i | 0 <= i <= |s|
      ensures !(sub <= s[i..])
    {
      if i + k < |s| {
        assert s[i..][k] == s[i + k];
      }
    }
  }

  /** The reordered classifier agrees with the original on every module
      outside node_modules and gives every node_modules module a vendor chunk. */
  lemma ReorderedKeepsAppChunks(id: string)
    ensures !Contains(id, "node_modules") ==> ManualChunksReordered(id) == ManualChunks(id)
    ensures Contains(id, "node_modules") ==>
              ManualChunksReordered(id).Some? && ManualChunksReordered(id).value.IsVendor()
  {
  }

  /** In the reordered classifier "react-vendor" is left only for modules
      that name no package with a chunk of its own. */
  lemma ReorderedReactVendorIsLast(id: string)
    requires Contains(id, "node_modules")
    ensures ManualChunksReordered(id) == Some(ReactVendor) <==>
              (Contains(id, "react") || Contains(id, "react-dom")) &&
              !Contains(id, "framer-motion") && !Contains(id, "@radix-ui") &&
              !Contains(id, "lucide-react") && !Contains(id, "@tabler/icons-react") &&
              !Contains(id, "react-router") && !Contains(id, "three") &&
              !Contains(id, "@react-three") && !Contains(id, "@tanstack/react-query")
  {
  }

  /** In the reordered classifier the router package gets its own chunk. */
  lemma ReorderedRouterReachable()
    ensures ManualChunksReordered("node_modules/react-router/") == Some(Router)
  {
    var id := "node_modules/react-router/";
    assert "node_modules" <= id[0..];
    assert "react-router" <= id[13..];
    MissingCharacter(id, "framer-motion", 0);
    MissingCharacter(id, "@radix-ui", 0);
    MissingCharacter(id, "lucide-react", 3);
    MissingCharacter(id, "@tabler/icons-react", 0);
  }

  /** `chunkFileNames`: the last path segment of the chunk's module is
      computed and then discarded; every chunk file is named by one pattern. */
  function ChunkFileName(facadeModuleId: Option<string>): string
  {
    "assets/[name]-[hash].js"
  }

  /** The chunk file name does not depend on the chunk's module. */
  lemma ChunkFileNameConstant(a: Option<string>, b: Option<string>)
    ensures ChunkFileName(a) == ChunkFileName(b) == "assets/[name]-[hash].js"
  {
  }
}
