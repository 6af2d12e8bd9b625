/**
 * Helpers shared by the consumer and the producer: the module error, the
 * payload bytes, the remote-method lookup, and the server URL label.
 */
module Utils {
  import opened Common
  import opened RuntimeTypes

  const URL_SEPARATOR: string := ", "

  /** The module's `Error`, carrying the detail message as it was given. */
  function CreateNatsError(detail: string): (e: Failure)
    ensures e.NatsError? && e.message == detail
  {
    NatsError(detail)
  }

  /** A `byte[]` payload is handed over as it is, byte for byte. */
  function ConvertDataIntoByteArray(data: seq<byte>): (bytes: seq<byte>)
    ensures |bytes| == |data| && forall i :: 0 <= i < |data| ==> bytes[i] == data[i]
  {
    data
  }

  /**
   * The remote method of `service` called `functionName`, scanning the
   * methods in declaration order and stopping at the first match.
   */
  method GetAttachedFunctionType(service: Service, functionName: string) returns (found: Option<MethodType>)
    ensures found.None? <==> forall i :: 0 <= i < |service.methods| ==> service.methods[i].name != functionName
    ensures found.Some? ==> found.value.name == functionName && found.value in service.methods
    ensures found == FirstNamed(service.methods, functionName)
  {
    found := None;
    var methods := service.methods;
    var i := 0;
    while i < |methods|
      invariant 0 <= i <= |methods|
      invariant found.None?
      invariant forall j :: 0 <= j < i ==> methods[j].name != functionName
    {
      if methods[i].name == functionName {
        found := Some(methods[i]);
        break;
      }
      i := i + 1;
    }
  }

  /** Java's `String.join`: the parts in order, with `separator` between neighbours. */
  function Join(parts: seq<string>, separator: string): string
  {
    if |parts| == 0 then ""
    else if |parts| == 1 then parts[0]
    else Join(parts[..|parts| - 1], separator) + separator + parts[|parts| - 1]
  }

  function TotalLength(parts: seq<string>): nat
  {
    if |parts| == 0 then 0 else TotalLength(parts[..|parts| - 1]) + |parts[|parts| - 1]|
  }

  /** Where the `k`-th part begins in the joined string. */
  function PartOffset(parts: seq<string>, separator: string, k: nat): nat
    requires k <= |parts|
  {
    TotalLength(parts[..k]) + k * |separator|
  }

  lemma {:induction false} JoinLength(parts: seq<string>, separator: string)
    requires |parts| > 0
    ensures |Join(parts, separator)| == TotalLength(parts) + (|parts| - 1) * |separator|
  {
    var n := |parts|;
    if n > 1 {
      var init := parts[..n - 1];
      JoinLength(init, separator);
      assert (n - 1) * |separator| == (n - 2) * |separator| + |separator|;
    } else {
      assert parts[..0] == [];
    }
  }

  lemma OffsetInInit(parts: seq<string>, separator: string, k: nat)
    requires k < |parts| - 1
    ensures PartOffset(parts, separator, k) == PartOffset(parts[..|parts| - 1], separator, k)
  {
    assert parts[..|parts| - 1][..k] == parts[..k];
  }

  lemma OffsetOfLast(parts: seq<string>, separator: string)
    requires |parts| > 1
    ensures PartOffset(parts, separator, |parts| - 1) == |Join(parts[..|parts| - 1], separator)| + |separator|
  {
    var n := |parts|;
    assert parts[..n - 1] == parts[..n - 1];
    JoinLength(parts[..n - 1], separator);
    assert (n - 1) * |separator| == (n - 2) * |separator| + |separator|;
  }

  lemma EndOfSecondToLast(parts: seq<string>, separator: string)
    requires |parts| > 1
    ensures PartOffset(parts, separator, |parts| - 2) + |parts[|parts| - 2]| == |Join(parts[..|parts| - 1], separator)|
  {
    var n := |parts|;
    var init := parts[..n - 1];
    JoinLength(init, separator);
    assert init[..n - 2] == parts[..n - 2];
    assert init[..|init| - 1] == init[..n - 2];
    assert TotalLength(init) == TotalLength(init[..n - 2]) + |init[n - 2]|;
  }

  /** Every part occurs in the joined string at its offset. */
  lemma {:induction false} JoinPartAt(parts: seq<string>, separator: string, k: nat)
    requires k < |parts|
    ensures PartOffset(parts, separator, k) + |parts[k]| <= |Join(parts, separator)|
    ensures Join(parts, separator)[PartOffset(parts, separator, k)..PartOffset(parts, separator, k) + |parts[k]|] == parts[k]
  {
    var n := |parts|;
    if n == 1 {
      assert parts[..0] == [];
    } else {
      var init := parts[..n - 1];
      var front := Join(init, separator);
      assert Join(parts, separator) == front + separator + parts[n - 1];
      var off := PartOffset(parts, separator, k);
      if k < n - 1 {
        OffsetInInit(parts, separator, k);
        JoinPartAt(init, separator, k);
        assert init[k] == parts[k];
      } else {
        OffsetOfLast(parts, separator);
      }
    }
  }

  /** Between a part and the next one stands exactly the separator. */
  lemma {:induction false} JoinSeparatorAfter(parts: seq<string>, separator: string, k: nat)
    requires k + 1 < |parts|
    ensures var end := PartOffset(parts, separator, k) + |parts[k]|;
            end + |separator| <= |Join(parts, separator)| &&
            Join(parts, separator)[end..end + |separator|] == separator
  {
    var n := |parts|;
    var init := parts[..n - 1];
    var front := Join(init, separator);
    assert Join(parts, separator) == front + separator + parts[n - 1];
    assert init[k] == parts[k];
    if k + 1 < n - 1 {
      OffsetInInit(parts, separator, k);
      JoinSeparatorAfter(init, separator, k);
      JoinLength(init, separator);
    } else {
      EndOfSecondToLast(parts, separator);
    }
  }

  /** The three facts above, for every part and every gap of one joined string. */
  lemma JoinShape(parts: seq<string>, separator: string)
    ensures forall k :: 0 <= k < |parts| ==>
              var off := PartOffset(parts, separator, k);
              off + |parts[k]| <= |Join(parts, separator)| &&
              Join(parts, separator)[off..off + |parts[k]|] == parts[k]
    ensures forall k :: 0 <= k < |parts| - 1 ==>
              var end := PartOffset(parts, separator, k) + |parts[k]|;
              end + |separator| <= |Join(parts, separator)| &&
              Join(parts, separator)[end..end + |separator|] == separator
    ensures |parts| > 0 ==> |Join(parts, separator)| == TotalLength(parts) + (|parts| - 1) * |separator|
  {
    forall k | 0 <= k < |parts|
      ensures var off := PartOffset(parts, separator, k);
              off + |parts[k]| <= |Join(parts, separator)| &&
              Join(parts, separator)[off..off + |parts[k]|] == parts[k]
    {
      JoinPartAt(parts, separator, k);
    }
    forall k | 0 <= k < |parts| - 1
      ensures var end := PartOffset(parts, separator, k) + |parts[k]|;
              end + |separator| <= |Join(parts, separator)| &&
              Join(parts, separator)[end..end + |separator|] == separator
    {
      JoinSeparatorAfter(parts, separator, k);
    }
    if |parts| > 0 {
      JoinLength(parts, separator);
    }
  }

  /**
   * The server label used for tracing and metrics: a single URL as it is, an
   * array of URLs joined with ", ".
   */
  function GetCommaSeparatedUrl(url: UrlValue): (text: string)
    ensures url.UrlString? ==> text == url.url
    ensures url.UrlArray? ==> forall k :: 0 <= k < |url.urls| ==>
              var off := PartOffset(url.urls, URL_SEPARATOR, k);
              off + |url.urls[k]| <= |text| && text[off..off + |url.urls[k]|] == url.urls[k]
    ensures url.UrlArray? ==> forall k :: 0 <= k < |url.urls| - 1 ==>
              var end := PartOffset(url.urls, URL_SEPARATOR, k) + |url.urls[k]|;
              end + |URL_SEPARATOR| <= |text| && text[end..end + |URL_SEPARATOR|] == URL_SEPARATOR
    ensures url.UrlArray? && |url.urls| > 0 ==>
              |text| == TotalLength(url.urls) + (|url.urls| - 1) * |URL_SEPARATOR|
    ensures url.UrlArray? && |url.urls| == 0 ==> text == ""
  {
    match url
    case UrlString(s) => s
    case UrlArray(urls) =>
      JoinShape(urls, URL_SEPARATOR);
      Join(urls, URL_SEPARATOR)
  }
}
