/** The few generic types the other modules share. */
module Basics {

  datatype Option<+T> = None | Some(value: T)

  newtype Byte = b: int | 0 <= b < 256

  type Bytes = seq<Byte>

  /** The digest of a file's content, in the form a sentinel records it. The
      hash is any function of the bytes: nothing here depends on which one. */
  const Sum: Bytes -> string

  /** Who the agent says it is in a sentinel, and who the one-shot command says it is. */
  const AGENT := "image-cache-agent"
  const COMMAND := "imagecachectl"

  /** How many temporaries an extraction creates before it gives up. */
  const TRIES := 3

  /** One file of an image. */
  datatype Body = Body(name: string, bytes: Bytes)

  function NamesOf(image: seq<Body>): (r: seq<string>)
    ensures |r| == |image|
  {
    seq(|image|, i requires 0 <= i < |image| => image[i].name)
  }

  /** What a directory holds once the first `done` files are written. */
  function FilesOf(image: seq<Body>, done: nat): map<string, Bytes>
    requires done <= |image|
  {
    if done == 0 then map[]
    else FilesOf(image, done - 1)[image[done - 1].name := image[done - 1].bytes]
  }

  function AllFiles(image: seq<Body>): map<string, Bytes> {
    FilesOf(image, |image|)
  }

  lemma {:induction false} FilesListed(image: seq<Body>, done: nat, f: string)
    requires done <= |image| && f in FilesOf(image, done)
    ensures exists k :: 0 <= k < done && image[k].name == f && image[k].bytes == FilesOf(image, done)[f]
  {
    if image[done - 1].name != f {
      FilesListed(image, done - 1, f);
    }
  }

  lemma {:induction false} ListedInFiles(image: seq<Body>, done: nat, k: nat)
    requires done <= |image| && k < done
    ensures image[k].name in FilesOf(image, done)
  {
    if k < done - 1 {
      ListedInFiles(image, done - 1, k);
    }
  }

  predicate Distinct(names: seq<string>) {
    forall i, j :: 0 <= i < j < |names| ==> names[i] != names[j]
  }

  /** When no name comes twice, every file keeps its own bytes. */
  lemma {:induction false} FilesHold(image: seq<Body>, done: nat, k: nat)
    requires done <= |image| && k < done && Distinct(NamesOf(image))
    ensures image[k].name in FilesOf(image, done) && FilesOf(image, done)[image[k].name] == image[k].bytes
  {
    if k < done - 1 {
      FilesHold(image, done - 1, k);
      assert NamesOf(image)[k] != NamesOf(image)[done - 1];
    }
  }

  lemma {:induction false} FilesOfPrefix(image: seq<Body>, more: seq<Body>, done: nat)
    requires done <= |image|
    ensures FilesOf(image + more, done) == FilesOf(image, done)
  {
    if done > 0 {
      FilesOfPrefix(image, more, done - 1);
    }
  }
}
