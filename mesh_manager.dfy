/** MeshManager (MeshManager.h, MeshManager.cpp): owns every mesh by name.
    A second mesh under a taken name fails an assertion; a lookup of a
    missing or null entry does too. A null entry is what LoadMesh gives for a
    file that cannot be opened. */
module MeshManagers {
  import opened Wrappers
  import opened Assets
  import opened Constants
  import opened Registries
  import MeshLoader

  /** The assertion MeshManager::GetMesh makes about the pointer it returns. */
  const NULL_MESH: string := "Mesh is NULL"

  /** MeshManager::GetMesh on a map of entries. */
  function LookupMesh(meshes: map<string, Option<Mesh>>, name: string): (r: Result<Mesh>)
    ensures r.Ok? <==> name in meshes && meshes[name].Some?
    ensures r.Ok? ==> Some(r.value) == meshes[name]
    ensures r.Fatal? ==> r.reason == NULL_MESH
  {
    if name in meshes && meshes[name].Some? then Ok(meshes[name].value) else Fatal(NULL_MESH)
  }

  /** After adding an entry under a new name, that name gives the new mesh
      (or fails when it is null) and every other name gives what it gave before. */
  lemma LookupAfterCreate(meshes: map<string, Option<Mesh>>, name: string, m: Option<Mesh>, other: string)
    requires name !in meshes
    ensures LookupMesh(meshes[name := m], other) ==
      if other == name then (if m.Some? then Ok(m.value) else Fatal(NULL_MESH)) else LookupMesh(meshes, other)
  {
  }

  /** The contents of the file an engine would open, by path; a path that
      is not a key cannot be opened. */
  function OpenFile(files: map<string, seq<string>>, path: string): (r: Option<seq<string>>)
    ensures r.Some? <==> path in files
    ensures r.Some? ==> r.value == files[path]
  {
    if path in files then Some(files[path]) else None
  }

  class MeshManager {
    var meshes: map<string, Option<Mesh>>

    constructor ()
      ensures meshes == map[]
    {
      meshes := map[];
    }

    /** MeshManager::CreateMesh(name, pMesh): `ok` is false, and nothing is
        stored, when the name is taken (the assertion fails). */
    method CreateMesh(name: string, m: Option<Mesh>) returns (ok: bool)
      modifies this
      ensures ok <==> name !in old(meshes)
      ensures meshes == if ok then old(meshes)[name := m] else old(meshes)
    {
      if name in meshes {
        return false;
      }
      meshes := meshes[name := m];
      return true;
    }

    /** MeshManager::CreateMesh(filename): loads MODEL_PATH + filename and
        stores the result under the file name, even when it is null. `ok` is
        false when the name is taken or the loader fails. */
    method CreateMeshFromFile(filename: string, files: map<string, seq<string>>) returns (ok: bool)
      modifies this
      ensures var loaded := MeshLoader.LoadedMesh(OpenFile(files, MODEL_PATH + filename));
        (ok <==> loaded.Ok? && filename !in old(meshes)) &&
        meshes == if ok then old(meshes)[filename := loaded.value] else old(meshes)
    {
      var loaded := MeshLoader.LoadMesh(OpenFile(files, MODEL_PATH + filename));
      if loaded.Fatal? {
        return false;
      }
      ok := CreateMesh(filename, loaded.value);
    }

    /** MeshManager::GetMesh. */
    function GetMesh(name: string): Result<Mesh>
      reads this
    {
      LookupMesh(meshes, name)
    }

    /** MeshManager::~MeshManager: every entry is deleted exactly once;
        `freed[i]` is the entry of `order[i]` (deleting a null one does nothing). */
    method Destroy() returns (order: seq<string>, freed: seq<Option<Mesh>>)
      ensures |order| == |meshes.Keys| == |freed| && Distinct(order)
      ensures forall name :: name in meshes <==> name in order
      ensures forall i :: 0 <= i < |order| ==> order[i] in meshes && freed[i] == meshes[order[i]]
    {
      order, freed := EachEntryOnce(meshes);
    }
  }
}
