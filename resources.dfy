/** The port pool (ResourceManager). Its free-list is not modelled: every
    restorePort call is recorded, in order, in `restoredPorts`. */
module Resources {

  class ResourceManager {
    var restoredPorts: seq<int>

    constructor ()
      ensures restoredPorts == []
    {
      restoredPorts := [];
    }

    method RestorePort(port: int)
      modifies this
      ensures restoredPorts == old(restoredPorts) + [port]
    {
      restoredPorts := restoredPorts + [port];
    }
  }
}
