// The tool store: the single active tool of the editor.
module ToolStore {
  import opened Elements

  class ToolStore {
    var activeTool: ToolType

    /** The editor starts in `select`. */
    constructor ()
      ensures activeTool == Select
    {
      activeTool := Select;
    }

    /** Overwrites the active tool; the tool is the store's only state. */
    method SetActiveTool(t: ToolType)
      modifies this
      ensures activeTool == t
    {
      activeTool := t;
    }
  }

  /** Setting a tool twice leaves the second one active: the last write wins. */
  method SetTwice(store: ToolStore, first: ToolType, second: ToolType)
    modifies store
    ensures store.activeTool == second
  {
    store.SetActiveTool(first);
    store.SetActiveTool(second);
  }
}
