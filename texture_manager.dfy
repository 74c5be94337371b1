/** TextureManager (TextureManager.h, TextureManager.cpp): textures by file
    name. Unlike MeshManager, a lookup of a missing name gives null and no
    assertion. */
module TextureManagers {
  import opened Wrappers
  import opened Assets
  import opened Constants

  /** The texture LoadTexture makes of a file in the texture directory. */
  function LoadTexture(filename: string): (t: Texture)
    ensures t.path == TEXTURE_PATH + filename
  {
    Texture(TEXTURE_PATH + filename)
  }

  /** TextureManager::GetTexture on a map of entries: None stands for null. */
  function LookupTexture(textures: map<string, Texture>, name: string): (r: Option<Texture>)
    ensures r.Some? <==> name in textures
    ensures r.Some? ==> r.value == textures[name]
  {
    if name in textures then Some(textures[name]) else None
  }

  /** Once a texture was created from a file name, looking the name up
      gives the texture loaded from that file, and every other name gives
      what it gave before. */
  lemma LookupAfterCreate(textures: map<string, Texture>, filename: string, other: string)
    requires filename !in textures
    ensures LookupTexture(textures[filename := LoadTexture(filename)], other) ==
      if other == filename then Some(Texture(TEXTURE_PATH + filename)) else LookupTexture(textures, other)
  {
  }

  class TextureManager {
    var textures: map<string, Texture>

    constructor ()
      ensures textures == map[]
    {
      textures := map[];
    }

    /** TextureManager::CreateTexture: `ok` is false, and nothing is stored,
        when the file name is taken (the assertion fails). */
    method CreateTexture(filename: string) returns (ok: bool)
      modifies this
      ensures ok <==> filename !in old(textures)
      ensures textures == if ok then old(textures)[filename := LoadTexture(filename)] else old(textures)
    {
      if filename in textures {
        return false;
      }
      textures := textures[filename := LoadTexture(filename)];
      return true;
    }

    /** TextureManager::GetTexture. */
    function GetTexture(name: string): Option<Texture>
      reads this
    {
      LookupTexture(textures, name)
    }
  }
}
