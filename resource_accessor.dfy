/**
 * The test program's helper that reads an embedded resource of an assembly by name.
 * The assembly is a value: its name and the table of its manifest resources.
 */
module ResourceAccessors {
  import opened Wrappers
  import opened Errors
  import opened Native

  /** An assembly as far as resource lookup sees it. */
  datatype Assembly = Assembly(name: string, resources: map<string, seq<Byte>>)

  /** Both fields are read-only once set, so the accessor is a value. */
  datatype ResourceAccessor = ResourceAccessor(assembly: Assembly, assemblyName: string)
  {
    /**
     * Qualifies a resource name with the assembly name unless it already begins with it
     * (an ordinal prefix test).
     */
    function GetName(name: string): (r: string)
      ensures assemblyName <= r
      ensures |name| <= |r| && r[|r| - |name|..] == name
      ensures r == name <==> assemblyName <= name
      ensures r != name ==> r == assemblyName + "." + name
    {
      if assemblyName <= name then name else assemblyName + "." + name
    }

    /**
     * The bytes of the resource the qualified name denotes; a missing resource is an
     * invalid-operation error.
     */
    function Binary(name: string): (r: Result<seq<Byte>, Error>)
      ensures GetName(name) !in assembly.resources <==> r == Failure(InvalidOperation(ResourceNotAvailableMessage))
      ensures GetName(name) in assembly.resources <==> r.Success?
      ensures r.Success? ==> r.value == assembly.resources[GetName(name)]
    {
      var key := GetName(name);
      if key in assembly.resources then Success(assembly.resources[key])
      else Failure(InvalidOperation(ResourceNotAvailableMessage))
    }
  }

  /** The constructor: takes the assembly and records its simple name. */
  function NewResourceAccessor(assembly: Assembly): (accessor: ResourceAccessor)
    ensures accessor.assembly == assembly
    ensures accessor.assemblyName == assembly.name
  {
    ResourceAccessor(assembly, assembly.name)
  }

  /** Qualifying an already qualified name changes nothing. */
  lemma GetNameIdempotent(accessor: ResourceAccessor, name: string)
    ensures accessor.GetName(accessor.GetName(name)) == accessor.GetName(name)
  {
  }

  /**
   * A short name (one not already beginning with the assembly name) finds the same
   * resource as its qualified form.
   */
  lemma BinaryAcceptsQualifiedName(accessor: ResourceAccessor, name: string)
    requires !(accessor.assemblyName <= name)
    ensures accessor.Binary(accessor.assemblyName + "." + name) == accessor.Binary(name)
  {
    assert accessor.assemblyName <= accessor.assemblyName + "." + name;
  }
}
