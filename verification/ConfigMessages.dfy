// The commands of the replicated log of the controllers (src/Application/ConfigServer/ConfigMessage.h).

module ConfigMessages {
  import opened Bytes

  // One constructor for each message type, with the fields that type carries.
  datatype Message =
    | SetClusterID(clusterID: nat)
    | RegisterShardServer(nodeID: nat, endpoint: bytes)
    | UnregisterShardServer(nodeID: nat)
    | CreateQuorum(name: bytes, nodes: seq<nat>)
    | RenameQuorum(quorumID: nat, name: bytes)
    | DeleteQuorum(quorumID: nat)
    | AddShardServerToQuorum(quorumID: nat, nodeID: nat)
    | RemoveShardServerFromQuorum(quorumID: nat, nodeID: nat)
    | ActivateShardServer(quorumID: nat, nodeID: nat, force: bool)
    | DeactivateShardServer(quorumID: nat, nodeID: nat, force: bool)
    | SetPriority(quorumID: nat, nodeID: nat, priority: nat)
    | CreateDatabase(name: bytes)
    | RenameDatabase(databaseID: nat, name: bytes)
    | DeleteDatabase(databaseID: nat)
    | CreateTable(databaseID: nat, quorumID: nat, name: bytes)
    | RenameTable(tableID: nat, name: bytes)
    | DeleteTable(tableID: nat)
    | FreezeTable(tableID: nat)
    | UnfreezeTable(tableID: nat)
    | FreezeDatabase(databaseID: nat)
    | UnfreezeDatabase(databaseID: nat)
    | TruncateTableBegin(tableID: nat)
    | TruncateTableComplete(tableID: nat)
    | SplitShardBegin(shardID: nat, splitKey: bytes)
    | SplitShardComplete(shardID: nat)
    | ShardMigrationBegin(quorumID: nat, shardID: nat)
    | ShardMigrationComplete(quorumID: nat, srcShardID: nat, dstShardID: nat)
}
