/**
 * The design tool's plugin-data store: every node that exists has a map from
 * keys to stored texts, and reading a key that was never written gives "".
 */
module Host {
  type NodeId = string

  class PluginDataStore {
    var data: map<NodeId, map<string, string>>

    constructor (initial: map<NodeId, map<string, string>>)
      ensures data == initial
    {
      data := initial;
    }

    /** Whether a node with this id exists. */
    predicate Exists(id: NodeId)
      reads this
    {
      id in data
    }

    /** `node.getPluginData(key)`. */
    function Get(id: NodeId, key: string): string
      reads this
    {
      if id in data && key in data[id] then data[id][key] else ""
    }

    /** The entries of one node (none for a node that does not exist). */
    function Entries(id: NodeId): map<string, string>
      reads this
    {
      if id in data then data[id] else map[]
    }

    /** `node.setPluginData(key, value)`. */
    method Set(id: NodeId, key: string, value: string)
      modifies this
      ensures data == old(data)[id := old(Entries(id))[key := value]]
      ensures Get(id, key) == value
      ensures forall other, k :: (other != id || k != key) ==> Get(other, k) == old(Get(other, k))
    {
      data := data[id := Entries(id)[key := value]];
    }
  }
}
