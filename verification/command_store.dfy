/** The log of invalid commands: append-only, in arrival order, duplicates kept. */
module CommandStorage {
  class CommandStore {
    var invalidCommands: seq<string>

    constructor ()
      ensures invalidCommands == []
    {
      invalidCommands := [];
    }

    method AddInvalidCommand(command: string)
      modifies this
      ensures invalidCommands == old(invalidCommands) + [command]
      ensures |invalidCommands| == |old(invalidCommands)| + 1
      ensures invalidCommands[|invalidCommands| - 1] == command
    {
      invalidCommands := invalidCommands + [command];
    }

    /**
     * The commands in the order they were added. The result is a value, not
     * a view of the store: nothing a caller does with it reaches the store,
     * and the call itself modifies nothing.
     */
    method GetAllInvalidCommands() returns (commands: seq<string>)
      ensures |commands| == |invalidCommands|
      ensures forall i :: 0 <= i < |commands| ==> commands[i] == invalidCommands[i]
    {
      commands := invalidCommands;
    }
  }
}
