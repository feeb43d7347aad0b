/**
 * Request bodies built by the resource handlers (src/XiocaAPI/__init__.py:44,
 * :50-51, :57, :63-64): `{"model": ..., "messages": ..., **kwargs}`. Python
 * binds the keyword-only parameters before collecting `**kwargs`, so the chat
 * handler's options never hold `model` or `messages`, and the image handler's
 * never hold `model`; they may hold `messages`, which then replaces the one
 * built from the prompt.
 */
module Payload {
  import opened Wrappers
  import opened Json
  import Schema

  /** `{"role": "user", "content": prompt}`. */
  function UserMessage(prompt: string): (m: Value)
    ensures m.Object? && Keys(m.fields) == ["role", "content"]
    ensures Get(m.fields, "role") == Some(Str(Schema.RoleName(Schema.User)))
    ensures Get(m.fields, "content") == Some(Str(prompt))
  {
    Object([("role", Str("user")), ("content", Str(prompt))])
  }

  function Head(model: string, messages: Value): Dict
  {
    [("model", Str(model)), ("messages", messages)]
  }

  /** The chat body: model, the messages unchanged, then every option in the caller's order. */
  function ChatPayload(model: string, messages: seq<Value>, options: Dict): (p: Dict)
    requires UniqueKeys(options)
    requires "model" !in Keys(options) && "messages" !in Keys(options)
    ensures p == [("model", Str(model)), ("messages", Array(messages))] + options
    ensures UniqueKeys(p)
  {
    var head := Head(model, Array(messages));
    assert Keys(head) == ["model", "messages"];
    SpreadDisjoint(head, options);
    SpreadUnique(head, options);
    Spread(head, options)
  }

  /** The image body: model, a one-message conversation from the prompt, then the options. */
  function ImagePayload(model: string, prompt: string, options: Dict): (p: Dict)
    requires UniqueKeys(options)
    requires "model" !in Keys(options)
    ensures UniqueKeys(p)
    ensures |p| >= 2 && Keys(p)[..2] == ["model", "messages"]
    ensures "messages" !in Keys(options) ==>
              p == [("model", Str(model)), ("messages", Array([UserMessage(prompt)]))] + options
  {
    var head := Head(model, Array([UserMessage(prompt)]));
    assert Keys(head) == ["model", "messages"];
    SpreadKeys(head, options);
    SpreadUnique(head, options);
    if "messages" in Keys(options) then Spread(head, options)
    else
      SpreadDisjoint(head, options);
      Spread(head, options)
  }

  /** Every field of the chat body: the model, the messages, and each option with its value. */
  lemma ChatPayloadFields(model: string, messages: seq<Value>, options: Dict, k: string)
    requires UniqueKeys(options)
    requires "model" !in Keys(options) && "messages" !in Keys(options)
    ensures Get(ChatPayload(model, messages, options), "model") == Some(Str(model))
    ensures Get(ChatPayload(model, messages, options), "messages") == Some(Array(messages))
    ensures k != "model" && k != "messages" ==> Get(ChatPayload(model, messages, options), k) == Get(options, k)
  {
    var head := Head(model, Array(messages));
    SpreadGet(head, options, "model");
    SpreadGet(head, options, "messages");
    SpreadGet(head, options, k);
  }

  /** Every field of the image body: an option named `messages` wins over the one built from the prompt. */
  lemma ImagePayloadFields(model: string, prompt: string, options: Dict, k: string)
    requires UniqueKeys(options)
    requires "model" !in Keys(options)
    ensures Get(ImagePayload(model, prompt, options), "model") == Some(Str(model))
    ensures Get(ImagePayload(model, prompt, options), "messages") ==
              if "messages" in Keys(options) then Get(options, "messages") else Some(Array([UserMessage(prompt)]))
    ensures k != "model" && k != "messages" ==> Get(ImagePayload(model, prompt, options), k) == Get(options, k)
  {
    var head := Head(model, Array([UserMessage(prompt)]));
    SpreadGet(head, options, "model");
    SpreadGet(head, options, "messages");
    SpreadGet(head, options, k);
  }

  /** `images.generate(model="m1", prompt="draw a cat")` posts exactly this body. */
  lemma ImageScenario()
    ensures ImagePayload("m1", "draw a cat", []) ==
              [("model", Str("m1")),
               ("messages", Array([Object([("role", Str("user")), ("content", Str("draw a cat"))])]))]
  {
  }
}
