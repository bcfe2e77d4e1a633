/** The production build's `manualChunks` rule: a first-match chain of
    substring tests on a module id that names the chunk the module is
    bundled into, or none (the bundler's default placement). */
module ChunkClassifier {
  import opened Common

  datatype Chunk =
    | ReactVendor | ThreeVendor | IconsVendor | RouterVendor | UtilsVendor | UiVendor | Vendor
    | ThreeComponents | UiComponents | Pages
  {
    /** A chunk the node_modules branch can return. */
    predicate IsVendor() {
      this in {ReactVendor, ThreeVendor, IconsVendor, RouterVendor, UtilsVendor, UiVendor, Vendor}
    }
  }

  /** The chunk name the function returns. */
  function ChunkName(c: Chunk): string {
    match c
    case ReactVendor => "react-vendor"
    case ThreeVendor => "three-vendor"
    case IconsVendor => "icons-vendor"
    case RouterVendor => "router-vendor"
    case UtilsVendor => "utils-vendor"
    case UiVendor => "ui-vendor"
    case Vendor => "vendor"
    case ThreeComponents => "three-components"
    case UiComponents => "ui-components"
    case Pages => "pages"
  }

  /** The library tests of the node_modules branch, in order. */
  function VendorChunk(id: string): (c: Chunk)
    ensures c.IsVendor()
  {
    if Contains(id, "react") || Contains(id, "react-dom") then ReactVendor
    else if Contains(id, "three") then ThreeVendor
    else if Contains(id, "lucide-react") then IconsVendor
    else if Contains(id, "react-router") then RouterVendor
    else if Contains(id, "zustand") || Contains(id, "clsx") || Contains(id, "class-variance-authority")
         || Contains(id, "tailwind-merge") then UtilsVendor
    else if Contains(id, "@radix-ui") then UiVendor
    else Vendor
  }

  /** The application tests, in order; None when no test matches. */
  function ComponentChunk(id: string): (c: Option<Chunk>)
    ensures c.Some? ==> !c.value.IsVendor()
  {
    if Contains(id, "src/components/Hero/Hero3D") || Contains(id, "src/lib/three") then Some(ThreeComponents)
    else if Contains(id, "src/components/ui/") then Some(UiComponents)
    else if Contains(id, "src/pages/") then Some(Pages)
    else None
  }

  /** manualChunks(id). */
  function ManualChunks(id: string): (c: Option<Chunk>)
    ensures c.Some? && c.value.IsVendor() <==> Contains(id, "node_modules")
  {
    if Contains(id, "node_modules") then Some(VendorChunk(id)) else ComponentChunk(id)
  }

  lemma Occurs(a: string, p: string, b: string)
    ensures Contains(a + p + b, p)
  {
    assert (a + p + b)[|a|..|a| + |p|] == p;
    ContainsAt(a + p + b, p, |a|);
  }

  /** Every id mentioning lucide-react or react-router also mentions react,
      which is tested first: the icons and router chunks are never chosen. */
  lemma UnreachableChunks(id: string)
    ensures ManualChunks(id) != Some(IconsVendor)
    ensures ManualChunks(id) != Some(RouterVendor)
  {
    if Contains(id, "lucide-react") {
      assert "lucide-react" == "lucide-" + "react" + "";
      Occurs("lucide-", "react", "");
      ContainsTransitive(id, "lucide-react", "react");
    }
    if Contains(id, "react-router") {
      assert "react-router" == "" + "react" + "-router";
      Occurs("", "react", "-router");
      ContainsTransitive(id, "react-router", "react");
    }
  }

  /** The react-dom test adds nothing: any id it matches the react test matches. */
  lemma ReactDomRedundant(id: string)
    requires Contains(id, "react-dom")
    ensures Contains(id, "react")
  {
    assert "react-dom" == "" + "react" + "-dom";
    Occurs("", "react", "-dom");
    ContainsTransitive(id, "react-dom", "react");
  }

  /** Library ids: react wins over everything, three over the rest, and the
      fallback is the shared vendor chunk. */
  lemma VendorPrecedence(id: string)
    requires Contains(id, "node_modules")
    ensures Contains(id, "react") ==> ManualChunks(id) == Some(ReactVendor)
    ensures ManualChunks(id) == Some(ThreeVendor) <==> !Contains(id, "react") && Contains(id, "three")
    ensures ManualChunks(id) == Some(Vendor) <==>
      !Contains(id, "react") && !Contains(id, "three") && !Contains(id, "zustand") && !Contains(id, "clsx")
      && !Contains(id, "class-variance-authority") && !Contains(id, "tailwind-merge") && !Contains(id, "@radix-ui")
  {
    if Contains(id, "react-dom") {
      ReactDomRedundant(id);
    }
    UnreachableChunks(id);
  }

  /** Application ids: the three.js code first, then the UI kit, then pages. */
  lemma ComponentPrecedence(id: string)
    requires !Contains(id, "node_modules")
    ensures ManualChunks(id) == Some(ThreeComponents) <==>
      Contains(id, "src/components/Hero/Hero3D") || Contains(id, "src/lib/three")
    ensures ManualChunks(id) == Some(UiComponents) <==>
      !Contains(id, "src/components/Hero/Hero3D") && !Contains(id, "src/lib/three") && Contains(id, "src/components/ui/")
    ensures ManualChunks(id) == Some(Pages) <==>
      !Contains(id, "src/components/Hero/Hero3D") && !Contains(id, "src/lib/three")
      && !Contains(id, "src/components/ui/") && Contains(id, "src/pages/")
    ensures ManualChunks(id).None? <==>
      !Contains(id, "src/components/Hero/Hero3D") && !Contains(id, "src/lib/three")
      && !Contains(id, "src/components/ui/") && !Contains(id, "src/pages/")
  {
  }

  /** The lucide icons, despite their own branch, go to the react chunk. */
  lemma LucideGoesToReact(a: string, b: string)
    ensures ManualChunks(a + "node_modules/lucide-react" + b) == Some(ReactVendor)
  {
    var id := a + "node_modules/lucide-react" + b;
    assert id == a + "node_modules" + ("/lucide-react" + b);
    Occurs(a, "node_modules", "/lucide-react" + b);
    assert id == (a + "node_modules/lucide-") + "react" + b;
    Occurs(a + "node_modules/lucide-", "react", b);
  }
}
