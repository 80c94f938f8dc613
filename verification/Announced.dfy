/** Where a sealed instance is announced, with what headers, and who may hear it. */
module Announced {
  import opened Text
  import opened Facts
  import opened Ledger
  import opened Door
  import opened Grants

  predicate Sep(c: char) { c == '/' || c == '#' }

  predicate NoSep(s: string) { forall i :: 0 <= i < |s| ==> !Sep(s[i]) }

  /** The class a type IRI names: what follows its last slash or hash. */
  ghost predicate ClassIs(t: string, cls: string) {
    NoSep(cls) && (t == cls || exists pre: string, c: char :: Sep(c) && t == pre + [c] + cls)
  }

  lemma {:induction false} SegmentAfter(pre: string, c: char, cls: string)
    requires Sep(c) && NoSep(cls)
    ensures LastSegment(pre + [c] + cls) == cls
  {
    var t := pre + [c] + cls;
    if cls == "" {
      assert t[|t| - 1] == c;
    } else {
      var front := cls[..|cls| - 1];
      assert t[..|t| - 1] == pre + [c] + front && t[|t| - 1] == cls[|cls| - 1];
      SegmentAfter(pre, c, front);
    }
  }

  lemma {:induction false} SegmentWhole(t: string)
    requires NoSep(t)
    ensures LastSegment(t) == t
  {
    if t != "" {
      SegmentWhole(t[..|t| - 1]);
    }
  }

  lemma ClassExactly(t: string, cls: string)
    requires ClassIs(t, cls)
    ensures LastSegment(t) == cls
  {
    if t == cls {
      SegmentWhole(t);
    } else {
      var pre: string, c: char :| Sep(c) && t == pre + [c] + cls;
      SegmentAfter(pre, c, cls);
    }
  }

  /** THE ANNOUNCEMENT. The row a write queues carries the stored bytes, on the subject
      of the type's class, or of `Instance` where the type names none. */
  lemma AnnouncedOn(w: World, key: string, s: Store, id: string, b: Body, t: string, cls: string)
    requires ClassIs(t, cls) && (Field(w, b, "type") == Some(t) || (Field(w, b, "type") == None && t == ""))
    ensures var s' := Written(w, key, s, id, b);
      && |s'.outbox| == |s.outbox| + 1 && s'.outbox[..|s.outbox|] == s.outbox
      && (var o := s'.outbox[|s.outbox|];
          && o.payload == w.bytes(b) && o.ledgerSeq == s.nextSeq
          && o.subject == (if cls == "" then "event.kernel.pgCK.Instance.sealed" else "event.kernel.pgCK." + cls + ".sealed"))
  {
    ClassExactly(t, cls);
    WrittenShape(w, key, s, id, b);
    assert "event.kernel.pgCK." + "Instance" + ".sealed" == "event.kernel.pgCK.Instance.sealed";
  }

  /** Its headers: the ledger number, the content type, the sender where the body names
      one, and nothing else. */
  lemma AnnouncedWith(w: World, key: string, s: Store, id: string, b: Body)
    ensures var s' := Written(w, key, s, id, b);
      && |s'.outbox| == |s.outbox| + 1
      && (var h := s'.outbox[|s.outbox|].headers;
          && "Ck-Seq" in h && h["Ck-Seq"] == Str(Print(s.nextSeq))
          && "Content-Type" in h && h["Content-Type"] == Str("application/json")
          && ("by" in h <==> "created_by" in b)
          && (forall x :: "created_by" in b && b["created_by"] == Str(x) ==> h["by"] == Str(x))
          && forall k :: k in h ==> k == "Ck-Seq" || k == "Content-Type" || k == "by")
  {
    var s1 := Upsert(s, id, b);
    assert s1.outbox == s.outbox && id in s1.instances && s1.instances[id] == b;
  }

  // -------------------------------------------------------------------- hearing it

  /** Whatever is sealed, its announcement reaches exactly the connections minted for
      the kernel `pgCK`, verified or not. */
  lemma HeardBy(a: Admission, kernels: seq<string>, w: World, key: string, s: Store, id: string, b: Body, t: string, cls: string)
    requires ClassIs(t, cls) && (Field(w, b, "type") == Some(t) || (Field(w, b, "type") == None && t == ""))
    requires forall k :: k in kernels ==> KernelName(k)
    ensures var s' := Written(w, key, s, id, b);
      |s'.outbox| == |s.outbox| + 1 && (Admits(Granted(a, kernels).sub, s'.outbox[|s.outbox|].subject) <==> "pgCK" in kernels)
  {
    AnnouncedOn(w, key, s, id, b, t, cls);
    SubjectHeard(a, kernels, cls);
  }

  lemma SubjectHeard(a: Admission, kernels: seq<string>, cls: string)
    requires forall k :: k in kernels ==> KernelName(k)
    ensures Admits(Granted(a, kernels).sub, if cls == "" then "event.kernel.pgCK.Instance.sealed" else "event.kernel.pgCK." + cls + ".sealed")
       <==> "pgCK" in kernels
  {
    SubjectSpelled(cls);
    KernelNameExactly("pgCK");
    MayHear(a, kernels, "pgCK", if cls == "" then "Instance.sealed" else cls + ".sealed");
  }

  lemma SubjectSpelled(cls: string)
    ensures "event.kernel." + "pgCK" + "." + (cls + ".sealed") == "event.kernel.pgCK." + cls + ".sealed"
    ensures "event.kernel." + "pgCK" + "." + "Instance.sealed" == "event.kernel.pgCK.Instance.sealed"
  {
    assert "event.kernel." + "pgCK" + "." == "event.kernel.pgCK.";
  }
}
