/** Provider stream chunks, as far as the streaming layer reads them. */
module Chunks {

  /** One tool-call delta; an empty field is one the provider did not send. */
  datatype Fragment = Fragment(index: int, id: string, name: string, arguments: string)

  datatype Chunk = Chunk(hasChoices: bool, text: string, reasoning: string, calls: seq<Fragment>, finish: string)

  /** `_chunk_has_activity`: anything but an empty transport keepalive. */
  predicate Active(c: Chunk) {
    && c.hasChoices
    && (|| c.finish != "" || c.text != "" || c.reasoning != ""
        || exists k :: 0 <= k < |c.calls| && Carries(c.calls[k]))
  }

  predicate Carries(f: Fragment) {
    f.id != "" || f.name != "" || f.arguments != ""
  }

  /** A transport keepalive: it has no choices, or nothing in them. */
  predicate Silent(c: Chunk) {
    c.hasChoices ==>
      && c.finish == "" && c.text == "" && c.reasoning == ""
      && forall f :: f in c.calls ==> f.id == "" && f.name == "" && f.arguments == ""
  }

  lemma ActiveUnlessSilent(c: Chunk)
    ensures Active(c) <==> !Silent(c)
  {
    if Active(c) && c.finish == "" && c.text == "" && c.reasoning == "" {
      var k :| 0 <= k < |c.calls| && Carries(c.calls[k]);
      assert c.calls[k] in c.calls;
    }
    if !Silent(c) && c.finish == "" && c.text == "" && c.reasoning == "" {
      var f :| f in c.calls && !(f.id == "" && f.name == "" && f.arguments == "");
      assert Carries(f);
    }
  }
}
