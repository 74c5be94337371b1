/** ShaderManager (ShaderManager.h, ShaderManager.cpp): shader programs by
    name. Registering is std::map::emplace, which keeps an existing entry;
    a lookup of an unregistered name fails an assertion. */
module ShaderManagers {
  import opened Wrappers
  import opened Assets
  import opened Registries

  const SHADER_NOT_FOUND: string := "Could not find shader"

  /** std::map::emplace(name, program): inserts only when the name is free. */
  function Emplace(shaders: map<string, ShaderProgram>, name: string, p: ShaderProgram): (r: map<string, ShaderProgram>)
    ensures r.Keys == shaders.Keys + {name}
    ensures r[name] == if name in shaders then shaders[name] else p
    ensures forall other :: other in shaders && other != name ==> r[other] == shaders[other]
  {
    if name in shaders then shaders else shaders[name := p]
  }

  /** ShaderManager::GetShaderByName on a map of entries. */
  function LookupShader(shaders: map<string, ShaderProgram>, name: string): (r: Result<ShaderProgram>)
    ensures r.Ok? <==> name in shaders
    ensures r.Ok? ==> r.value == shaders[name]
    ensures r.Fatal? ==> r.reason == SHADER_NOT_FOUND
  {
    if name in shaders then Ok(shaders[name]) else Fatal(SHADER_NOT_FOUND)
  }

  /** The first program registered under a name is the one every later
      lookup finds, however often the name is registered again. */
  lemma {:induction false} FirstRegistrationWins(shaders: map<string, ShaderProgram>, name: string,
                                                 programs: seq<ShaderProgram>)
    requires |programs| > 0
    ensures LookupShader(EmplaceAll(shaders, name, programs), name) ==
      Ok(if name in shaders then shaders[name] else programs[0])
    decreases |programs|
  {
    if |programs| > 1 {
      FirstRegistrationWins(shaders, name, programs[..|programs| - 1]);
    }
  }

  /** Registering each of `programs` under one name, in order. */
  function EmplaceAll(shaders: map<string, ShaderProgram>, name: string, programs: seq<ShaderProgram>): map<string, ShaderProgram>
    decreases |programs|
  {
    if |programs| == 0 then shaders
    else Emplace(EmplaceAll(shaders, name, programs[..|programs| - 1]), name, programs[|programs| - 1])
  }

  class ShaderManager {
    var shaders: map<string, ShaderProgram>

    constructor ()
      ensures shaders == map[]
    {
      shaders := map[];
    }

    /** ShaderManager::RegisterShader. */
    method RegisterShader(vertPath: string, fragPath: string, name: string)
      modifies this
      ensures shaders == Emplace(old(shaders), name, ShaderProgram(vertPath, fragPath))
    {
      if name !in shaders {
        shaders := shaders[name := ShaderProgram(vertPath, fragPath)];
      }
    }

    /** ShaderManager::GetShaderByName. */
    function GetShaderByName(name: string): Result<ShaderProgram>
      reads this
    {
      LookupShader(shaders, name)
    }

    /** ShaderManager::~ShaderManager: every registered program is deleted
        exactly once; `deleted[i]` is the program of `order[i]`. */
    method Destroy() returns (order: seq<string>, deleted: seq<ShaderProgram>)
      ensures |order| == |shaders.Keys| == |deleted| && Distinct(order)
      ensures forall name :: name in shaders <==> name in order
      ensures forall i :: 0 <= i < |order| ==> order[i] in shaders && deleted[i] == shaders[order[i]]
    {
      order, deleted := EachEntryOnce(shaders);
    }
  }
}
