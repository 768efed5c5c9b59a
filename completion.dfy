/**
 * `onCompletion` and `onCompletionResolve`: a fixed list of two items, and
 * the resolve step that fills in an item's detail and documentation in
 * place, keyed on the item's `data`.
 */
module Completion {
  import opened Wrappers

  /** `CompletionItemKind.Text`. */
  const TextKind: int := 1

  /**
   * A completion item as the handlers see it. `data` is the number the
   * server attached to the item (`None` when the editor sent back no number).
   */
  class CompletionItem {
    /** The item's `label` (a reserved word in Dafny). */
    var caption: string
    var kind: Option<int>
    var data: Option<int>
    var detail: Option<string>
    var documentation: Option<string>

    constructor (caption: string, kind: Option<int>, data: Option<int>)
      ensures this.caption == caption && this.kind == kind && this.data == data
      ensures detail == None && documentation == None
    {
      this.caption := caption;
      this.kind := kind;
      this.data := data;
      detail := None;
      documentation := None;
    }
  }

  /**
   * The detail and documentation resolve fills in for an item's `data`:
   * TypeScript for 1, JavaScript for 2, nothing for anything else.
   */
  function ResolvedText(data: Option<int>): (r: Option<(string, string)>)
    ensures r.Some? <==> data == Some(1) || data == Some(2)
    ensures data == Some(1) ==> r == Some(("TypeScript details", "TypeScript documentation"))
    ensures data == Some(2) ==> r == Some(("JavaScript details", "JavaScript documentation"))
  {
    match data
    case Some(1) => Some(("TypeScript details", "TypeScript documentation"))
    case Some(2) => Some(("JavaScript details", "JavaScript documentation"))
    case _ => None
  }

  /** `onCompletion`: whatever the position, the same two fresh items. */
  method OnCompletion() returns (items: seq<CompletionItem>)
    ensures |items| == 2 && fresh(items[0]) && fresh(items[1]) && items[0] != items[1]
    ensures items[0].caption == "TypeScript" && items[0].kind == Some(TextKind) && items[0].data == Some(1)
    ensures items[1].caption == "JavaScript" && items[1].kind == Some(TextKind) && items[1].data == Some(2)
    ensures forall i :: 0 <= i < 2 ==> items[i].detail == None && items[i].documentation == None
  {
    var ts := new CompletionItem("TypeScript", Some(TextKind), Some(1));
    var js := new CompletionItem("JavaScript", Some(TextKind), Some(2));
    items := [ts, js];
  }

  /**
   * `onCompletionResolve`: sets detail and documentation of the item itself
   * when its data is 1 or 2, leaves it untouched otherwise, and returns the
   * same object.
   */
  method OnCompletionResolve(item: CompletionItem) returns (r: CompletionItem)
    modifies item
    ensures r == item
    ensures item.caption == old(item.caption) && item.kind == old(item.kind) && item.data == old(item.data)
    ensures ResolvedText(item.data).Some? ==>
      item.detail == Some(ResolvedText(item.data).value.0) &&
      item.documentation == Some(ResolvedText(item.data).value.1)
    ensures ResolvedText(item.data).None? ==>
      item.detail == old(item.detail) && item.documentation == old(item.documentation)
  {
    if item.data == Some(1) {
      item.detail := Some("TypeScript details");
      item.documentation := Some("TypeScript documentation");
    } else if item.data == Some(2) {
      item.detail := Some("JavaScript details");
      item.documentation := Some("JavaScript documentation");
    }
    r := item;
  }

  /** Resolving an item the server produced gives it the details of its language. */
  method CompleteThenResolve() returns (items: seq<CompletionItem>)
    ensures |items| == 2
    ensures items[0].detail == Some("TypeScript details") && items[0].documentation == Some("TypeScript documentation")
    ensures items[1].detail == Some("JavaScript details") && items[1].documentation == Some("JavaScript documentation")
  {
    items := OnCompletion();
    var _ := OnCompletionResolve(items[0]);
    var _ := OnCompletionResolve(items[1]);
  }
}
