/**
 * The `build` command: the backend name given on the command line is parsed
 * case-insensitively, and only backends that need a build step get one; the
 * others are answered with a message and no process.
 */
module BuildCmd {
  import opened Wrappers
  import opened CliState

  function LowerChar(c: char): char
  {
    if 'A' <= c <= 'Z' then (c as int + 32) as char else c
  }

  /** Lower-casing, on the ASCII letters. */
  function AsciiLower(s: string): (r: string)
    ensures |r| == |s| && forall i :: 0 <= i < |s| ==> r[i] == LowerChar(s[i])
  {
    seq(|s|, i requires 0 <= i < |s| => LowerChar(s[i]))
  }

  /** Lower-casing twice is lower-casing once. */
  lemma AsciiLowerIdempotent(s: string)
    ensures AsciiLower(AsciiLower(s)) == AsciiLower(s)
  {
  }

  /** The accepted spellings of each backend, all lower case. */
  function Spellings(b: Backend): seq<string>
  {
    match b
    case Metal => ["metal"]
    case WebGPU => ["webgpu", "wgpu"]
    case WasmExport => ["wasm", "wasm-export"]
    case OpenGL => ["opengl", "gl"]
    case Vulkan => ["vulkan", "vk"]
  }

  predicate Spells(name: string, b: Backend)
  {
    name in Spellings(b)
  }

  function UnknownBackend(s: string): string
  {
    "Unknown backend: " + s + ". Options: opengl, metal, vulkan, webgpu, wasm"
  }

  /**
   * The backend named by `s`, in any letter case; any other name is an error
   * that quotes `s` as given and lists the options.
   */
  function ParseBackend(s: string): (r: Result<Backend, string>)
    ensures r.Ok? ==> Spells(AsciiLower(s), r.value)
    ensures (exists b :: Spells(AsciiLower(s), b)) ==> r.Ok?
    ensures r.Err? ==> r.error == UnknownBackend(s)
  {
    var name := AsciiLower(s);
    if name == "metal" then Ok(Metal)
    else if name == "webgpu" || name == "wgpu" then Ok(WebGPU)
    else if name == "wasm" || name == "wasm-export" then Ok(WasmExport)
    else if name == "opengl" || name == "gl" then Ok(OpenGL)
    else if name == "vulkan" || name == "vk" then Ok(Vulkan)
    else Err(UnknownBackend(s))
  }

  /** Names that differ only in letter case parse to the same backend (or both fail). */
  lemma ParseIgnoresCase(s: string, t: string)
    requires AsciiLower(s) == AsciiLower(t)
    ensures ParseBackend(s).Ok? == ParseBackend(t).Ok?
    ensures ParseBackend(s).Ok? ==> ParseBackend(s).value == ParseBackend(t).value
  {
  }

  /** A string with no upper-case ASCII letter is its own lower case. */
  lemma LowerOfLowercase(s: string)
    requires forall i :: 0 <= i < |s| ==> !('A' <= s[i] <= 'Z')
    ensures AsciiLower(s) == s
  {
  }

  /** Every listed spelling reaches its backend, and every backend has a spelling. */
  lemma SpellingsParse(b: Backend)
    ensures |Spellings(b)| > 0
    ensures forall name :: name in Spellings(b) ==> ParseBackend(name) == Ok(b)
  {
    forall name | name in Spellings(b)
      ensures ParseBackend(name) == Ok(b)
    {
      LowerOfLowercase(name);
    }
  }

  /** Every backend can be named on the command line. */
  lemma EveryBackendHasSpelling(b: Backend)
    ensures exists s :: ParseBackend(s) == Ok(b)
  {
    SpellingsParse(b);
    assert ParseBackend(Spellings(b)[0]) == Ok(b);
  }

  /** What `build` does for a backend: print that no build is needed, or spawn a build tool in an engine directory. */
  datatype BuildAction =
    | NoBuildStep(message: string)
    | Spawn(program: string, args: seq<string>, directory: string)

  /**
   * The command's decision, before any process runs. Backends that need no
   * build return early, so the match on the remaining backends covers every
   * case that reaches it.
   */
  function BuildPlan(backendName: string): (r: Result<BuildAction, string>)
    ensures ParseBackend(backendName).Err? ==> r == Err(ParseBackend(backendName).error)
    ensures ParseBackend(backendName).Ok? ==>
      r.Ok? && (r.value.Spawn? <==> NeedsBuild(ParseBackend(backendName).value))
  {
    match ParseBackend(backendName)
    case Err(e) => Err(e)
    case Ok(b) =>
      if !NeedsBuild(b) then Ok(NoBuildStep(Label(b) + " requires no build step."))
      else
        match b
        case Metal => Ok(Spawn("swift", ["build", "-c", "release"], "metal_bridge"))
        case WebGPU => Ok(Spawn("cargo", ["build", "--release"], "openreality-wgpu"))
        case WasmExport => Ok(Spawn("wasm-pack", ["build", "--target", "web", "--release"], "openreality-web"))
        case _ => assert false; Err("")
  }
}
