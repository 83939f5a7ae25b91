/** frontend/vite.config.ts: `manualChunks`, which names the bundle chunk of a module id. */
module Chunks {
  import opened Js
  import opened Strings

  datatype Chunk = Vendor | ThreeVendor | AnimationVendor

  function ChunkName(c: Chunk): string {
    match c
    case Vendor => "vendor"
    case ThreeVendor => "three-vendor"
    case AnimationVendor => "animation-vendor"
  }

  /** The chunk of module `id`, or None (undefined: Rollup's default placement). */
  function ManualChunks(id: string): (r: Option<Chunk>)
    ensures r.None? <==> !Contains(id, "node_modules")
  {
    if Contains(id, "node_modules") then
      if Contains(id, "@react-three") then Some(Vendor)
      else if Contains(id, "three") then Some(ThreeVendor)
      else if Contains(id, "gsap") || Contains(id, "framer-motion") then Some(AnimationVendor)
      else Some(Vendor)
    else None
  }

  /** Every '@react-three' id is also a 'three' id, which is why its test comes first. */
  lemma ReactThreeIsThree(id: string)
    requires Contains(id, "@react-three")
    ensures Contains(id, "three")
  {
    assert "@react-three" == "@react-" + "three";
    ContainsSuffix(id, "@react-", "three");
  }

  /** Which dependencies land in which chunk, each stated both ways. */
  lemma ChunkOf(id: string)
    requires Contains(id, "node_modules")
    ensures ManualChunks(id) == Some(ThreeVendor)
        <==> Contains(id, "three") && !Contains(id, "@react-three")
    ensures ManualChunks(id) == Some(AnimationVendor)
        <==> !Contains(id, "three") && (Contains(id, "gsap") || Contains(id, "framer-motion"))
    ensures ManualChunks(id) == Some(Vendor)
        <==> Contains(id, "@react-three") || (!Contains(id, "three") && !Contains(id, "gsap") && !Contains(id, "framer-motion"))
  {
    if Contains(id, "@react-three") {
      ReactThreeIsThree(id);
    }
  }
}
