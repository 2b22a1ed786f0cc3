/**
 * `manualChunks` of vite.config.js: the bundle chunk a module goes to, from a chain of
 * substring tests on the module id. `None` is the `undefined` answer (default chunking).
 */
module ViteConfig {
  import opened Options
  import opened Strings

  /** Every chunk name the classifier as written can give. */
  const ChunkNames: set<string> :=
    {"three", "react-three-fiber", "react-three-drei", "react-router", "react-core", "react-dom", "react-vendor", "vendor"}

  /** `manualChunks(id)` as written: the `"three"` test comes first. */
  function ManualChunks(id: string): (r: Option<string>)
    ensures r.Some? ==> r.value in ChunkNames
    ensures r.None? <==> !Contains(id, "node_modules")
  {
    if Contains(id, "node_modules") then
      if Contains(id, "three") then Some("three")
      else if Contains(id, "@react-three/fiber") then Some("react-three-fiber")
      else if Contains(id, "@react-three/drei") then Some("react-three-drei")
      else if Contains(id, "react-router") then Some("react-router")
      else if Contains(id, "/react/") || Contains(id, "react/jsx-runtime") then Some("react-core")
      else if Contains(id, "react-dom") then Some("react-dom")
      else if Contains(id, "react") then Some("react-vendor")
      else Some("vendor")
    else None
  }

  /** "@react-three/fiber" and "@react-three/drei" both contain "three". */
  lemma ReactThreeNamesContainThree()
    ensures Contains("@react-three/fiber", "three") && Contains("@react-three/drei", "three")
  {
    assert "three" <= "@react-three/fiber"[7..];
    ContainsAt("@react-three/fiber", "three", 7);
    assert "three" <= "@react-three/drei"[7..];
    ContainsAt("@react-three/drei", "three", 7);
  }

  /**
   * Any dependency whose id contains "three" lands in the "three" chunk, the React Three packages
   * included: "react-three-fiber" and "react-three-drei" are never answered.
   */
  lemma ReactThreeChunksUnreachable(id: string)
    requires Contains(id, "node_modules")
    ensures Contains(id, "three") ==> ManualChunks(id) == Some("three")
    ensures ManualChunks(id) != Some("react-three-fiber") && ManualChunks(id) != Some("react-three-drei")
  {
    ReactThreeNamesContainThree();
    if Contains(id, "@react-three/fiber") {
      ContainsTransitive(id, "@react-three/fiber", "three");
    }
    if Contains(id, "@react-three/drei") {
      ContainsTransitive(id, "@react-three/drei", "three");
    }
  }

  /** A router dependency never lands in the React core, DOM or vendor chunks. */
  lemma RouterBeforeReact(id: string)
    requires Contains(id, "node_modules") && Contains(id, "react-router")
    ensures ManualChunks(id) == Some("react-router") || ManualChunks(id) == Some("three")
  {
    ReactThreeChunksUnreachable(id);
  }

  /** Every React-specific test string contains "react". */
  lemma ReactTestsContainReact()
    ensures Contains("@react-three/fiber", "react") && Contains("@react-three/drei", "react")
    ensures Contains("react-router", "react") && Contains("/react/", "react")
    ensures Contains("react/jsx-runtime", "react") && Contains("react-dom", "react")
  {
    assert "react" <= "@react-three/fiber"[1..];
    ContainsAt("@react-three/fiber", "react", 1);
    assert "react" <= "@react-three/drei"[1..];
    ContainsAt("@react-three/drei", "react", 1);
    assert "react" <= "react-router"[0..];
    ContainsAt("react-router", "react", 0);
    assert "react" <= "/react/"[1..];
    ContainsAt("/react/", "react", 1);
    assert "react" <= "react/jsx-runtime"[0..];
    ContainsAt("react/jsx-runtime", "react", 0);
    assert "react" <= "react-dom"[0..];
    ContainsAt("react-dom", "react", 0);
  }

  /** A text lacking `sub` lacks every `mid` that contains `sub`. */
  lemma NotContainsVia(s: string, mid: string, sub: string)
    requires !Contains(s, sub) && Contains(mid, sub)
    ensures !Contains(s, mid)
  {
    if Contains(s, mid) {
      ContainsTransitive(s, mid, sub);
    }
  }

  /** A dependency that matches no test goes to "vendor". */
  lemma UnmatchedDependencyIsVendor(id: string)
    requires Contains(id, "node_modules") && !Contains(id, "three") && !Contains(id, "react")
    ensures ManualChunks(id) == Some("vendor")
  {
    ReactTestsContainReact();
    NotContainsVia(id, "@react-three/fiber", "react");
    NotContainsVia(id, "@react-three/drei", "react");
    NotContainsVia(id, "react-router", "react");
    NotContainsVia(id, "/react/", "react");
    NotContainsVia(id, "react/jsx-runtime", "react");
    NotContainsVia(id, "react-dom", "react");
  }

  /**
   * The classifier as its own comment intends, with separate chunks for three.js and for the
   * React Three packages: those packages are tested before the bare "three".
   */
  function ManualChunksIntended(id: string): (r: Option<string>)
    ensures r.Some? ==> r.value in ChunkNames
    ensures r.None? <==> !Contains(id, "node_modules")
  {
    if Contains(id, "node_modules") && Contains(id, "@react-three/fiber") then Some("react-three-fiber")
    else if Contains(id, "node_modules") && Contains(id, "@react-three/drei") then Some("react-three-drei")
    else ManualChunks(id)
  }

  /**
   * With the intended order the React Three packages get their own chunks, and every other id is
   * classified as before.
   */
  lemma IntendedSeparatesReactThree(id: string)
    requires Contains(id, "node_modules")
    ensures Contains(id, "@react-three/fiber") ==> ManualChunksIntended(id) == Some("react-three-fiber")
    ensures !Contains(id, "@react-three/fiber") && Contains(id, "@react-three/drei") ==>
      ManualChunksIntended(id) == Some("react-three-drei")
    ensures !Contains(id, "@react-three/fiber") && !Contains(id, "@react-three/drei") ==>
      ManualChunksIntended(id) == ManualChunks(id)
  {
  }

  /** "node_modules" opens the fiber package's directory path. */
  lemma FiberPathModules()
    ensures OccursAt("node_modules/@react-three/fiber", "node_modules", 0)
  {
    assert "node_modules" <= "node_modules/@react-three/fiber"[0..];
  }

  /** "@react-three/fiber" follows "node_modules/" in the package's directory path. */
  lemma FiberPathPackage()
    ensures OccursAt("node_modules/@react-three/fiber", "@react-three/fiber", 13)
  {
    assert "@react-three/fiber" <= "node_modules/@react-three/fiber"[13..];
  }

  /** The ids that show the difference: any module of the fiber package itself. */
  lemma FiberPackageExample(prefix: string, suffix: string)
    ensures var id := prefix + "node_modules/@react-three/fiber" + suffix;
      ManualChunks(id) == Some("three") && ManualChunksIntended(id) == Some("react-three-fiber")
  {
    var id := prefix + "node_modules/@react-three/fiber" + suffix;
    ContainsInfix(prefix, "node_modules/@react-three/fiber", suffix);
    FiberPathModules();
    ContainsAt("node_modules/@react-three/fiber", "node_modules", 0);
    FiberPathPackage();
    ContainsAt("node_modules/@react-three/fiber", "@react-three/fiber", 13);
    ContainsTransitive(id, "node_modules/@react-three/fiber", "node_modules");
    ContainsTransitive(id, "node_modules/@react-three/fiber", "@react-three/fiber");
    ReactThreeChunksUnreachable(id);
  }
}
