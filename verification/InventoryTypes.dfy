/** What the inventory's rows, its file and the approvals of its assignments are made of. */
module InventoryTypes {
  import opened Basics

  type Name = nat

  datatype Manager = Api | Config
  datatype Approval = Draft | Proposed | Approved | Applied | Rejected
  datatype Connection = Connection(host: Name, port: nat, database: Name, credential: Name)
  datatype Policy = Policy(interval: nat, timeout: Option<nat>, maxRows: Option<nat>, enabled: bool)
}
