/**
 * The airspace bookkeeping kept by AirspaceHelper: the set of airspace
 * identifiers already loaded and the lazily loaded map from airspace type
 * names to object types.
 *
 * The source keeps both in static members; here they are the fields of one
 * object. Reading the type mapping file (loadAirspaceTypeMapping, whose body
 * lives in AirspaceHelper.cpp) is not part of this model: the map it would
 * produce is given to the constructor as `typeMappingFile`.
 */
module AirspaceHelper {
  import opened BaseMap

  /** The type map after a lookup: an empty map is (re)loaded first. */
  function LoadedTypeMap(current: map<string, ObjectType>, file: map<string, ObjectType>): (m: map<string, ObjectType>)
    ensures |current| > 0 ==> m == current
    ensures |current| == 0 ==> m == file
  {
    if |current| == 0 then file else current
  }

  /** QMap::value(type, AirUkn). */
  function TypeOrUnknown(m: map<string, ObjectType>, name: string): (t: ObjectType)
    ensures name in m ==> t == m[name]
    ensures name !in m ==> t == AirUkn
  {
    if name in m then m[name] else AirUkn
  }

  /**
   * The two type lookups agree: a name the map knows is mapped to its
   * entry, and a name that maps to something other than AirUkn is known.
   */
  lemma TypeLookupsAgree(current: map<string, ObjectType>, file: map<string, ObjectType>, name: string)
    ensures var m := LoadedTypeMap(current, file);
      (name in m ==> TypeOrUnknown(m, name) == m[name])
      && (TypeOrUnknown(m, name) != AirUkn ==> name in m)
  {
  }

  class AirspaceHelper {
    /** m_airspaceDictionary: identifiers of the airspaces already loaded. */
    var dictionary: set<int>
    /** m_airspaceTypeMap: airspace type name to object type; empty until first used. */
    var typeMap: map<string, ObjectType>
    /** What loadAirspaceTypeMapping reads from the mapping file. */
    const typeMappingFile: map<string, ObjectType>

    constructor (typeMappingFile: map<string, ObjectType>)
      ensures dictionary == {} && typeMap == map[]
      ensures this.typeMappingFile == typeMappingFile
    {
      dictionary := {};
      typeMap := map[];
      this.typeMappingFile := typeMappingFile;
    }

    /** isAirspaceBaseTypeKnown: loads the mapping if the map is empty, then tests membership. */
    method IsAirspaceBaseTypeKnown(name: string) returns (known: bool)
      modifies this`typeMap
      ensures typeMap == LoadedTypeMap(old(typeMap), typeMappingFile)
      ensures known <==> name in typeMap
    {
      if |typeMap| == 0 {
        typeMap := typeMappingFile;
      }
      known := name in typeMap;
    }

    /** mapAirspaceBaseType: loads the mapping if the map is empty, then looks the name up, AirUkn if absent. */
    method MapAirspaceBaseType(name: string) returns (t: ObjectType)
      modifies this`typeMap
      ensures typeMap == LoadedTypeMap(old(typeMap), typeMappingFile)
      ensures name in typeMap ==> t == typeMap[name]
      ensures name !in typeMap ==> t == AirUkn
    {
      if |typeMap| == 0 {
        typeMap := typeMappingFile;
      }
      t := if name in typeMap then typeMap[name] else AirUkn;
    }

    /** isAirspaceKnown: whether the identifier has been added. */
    method IsAirspaceKnown(id: int) returns (known: bool)
      ensures known <==> id in dictionary
    {
      known := id in dictionary;
    }

    /**
     * addAirspaceIdentifier: inserts `id` and reports whether it was new; a
     * known identifier leaves the set as it is.
     */
    method AddAirspaceIdentifier(id: int) returns (added: bool)
      modifies this`dictionary
      ensures added <==> id !in old(dictionary)
      ensures dictionary == old(dictionary) + {id}
      ensures !added ==> dictionary == old(dictionary)
      ensures id in dictionary
    {
      if id in dictionary {
        return false;
      }
      dictionary := dictionary + {id};
      return true;
    }
  }
}
