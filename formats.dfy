/**
 * `get_format_options(quality, file_type)`: the format-selection expression handed to yt_dlp.
 * Both shells carry the same definition.
 */
module Formats {
  const Low := "منخفضة"
  const Medium := "متوسطة"
  const High := "عالية"
  const Mp3 := "mp3"

  const AudioFormat := "bestaudio/best"
  /** The mp4/m4a preference and the unconstrained fallbacks appended to every video tier. */
  const VideoFallbacks := "[ext=mp4]+bestaudio[ext=m4a]/best[ext=mp4]/best"
  const HeightPrefix := "best[height<="

  /** `best[height<=N]` for the ceiling `N`. */
  function Capped(n: string): string {
    HeightPrefix + n + "]"
  }

  /** The three-entry tier map. */
  const QualityMap: map<string, string> := map[
    Low := Capped("360"),
    Medium := Capped("720"),
    High := Capped("1080") + HighFallbacks
  ]
  /** What the high tier adds after its height cap: `/bestvideo[height<=1080]+bestaudio/best`. */
  const HighFallbacks := "/bestvideo[height<=1080]+bestaudio/best"

  /** `quality_map.get(quality, 'best[height<=720]')`. */
  function TierExpression(quality: string): (r: string)
    ensures quality in QualityMap ==> r == QualityMap[quality]
    ensures quality !in QualityMap ==> r == QualityMap[Medium]
  {
    if quality in QualityMap then QualityMap[quality] else Capped("720")
  }

  /** `get_format_options(quality, file_type)`. */
  function FormatOptions(quality: string, fileType: string): (r: string)
    ensures |r| > 0
    ensures fileType == Mp3 ==> r == AudioFormat
    ensures fileType != Mp3 ==>
      |VideoFallbacks| < |r| && r[|r| - |VideoFallbacks|..] == VideoFallbacks
    ensures fileType != Mp3 && quality in QualityMap ==> r == QualityMap[quality] + VideoFallbacks
    ensures fileType != Mp3 && quality !in QualityMap ==> r == QualityMap[Medium] + VideoFallbacks
  {
    if fileType == Mp3 then AudioFormat else TierExpression(quality) + VideoFallbacks
  }

  /** The height ceiling of each tier, in lines: 360, 720 or 1080, and 720 for anything unrecognised. */
  function HeightCap(quality: string): string {
    if quality == Low then "360" else if quality == High then "1080" else "720"
  }

  /** An unrecognised quality selects exactly what the medium tier selects. */
  lemma UnknownQualityIsMedium(quality: string, fileType: string)
    requires quality !in QualityMap
    ensures FormatOptions(quality, fileType) == FormatOptions(Medium, fileType)
  {
  }

  /** For audio the quality tier plays no part. */
  lemma AudioIgnoresQuality(q1: string, q2: string)
    ensures FormatOptions(q1, Mp3) == FormatOptions(q2, Mp3) == AudioFormat
  {
  }

  /** Every video expression starts by capping the height at the tier's ceiling. */
  lemma VideoCapsHeight(quality: string, fileType: string)
    requires fileType != Mp3
    ensures Capped(HeightCap(quality)) <= FormatOptions(quality, fileType)
  {
    var cap := Capped(HeightCap(quality));
    var extra := if quality == High then HighFallbacks else "";
    assert TierExpression(quality) == cap + extra;
    PrefixOfConcat(cap, extra, VideoFallbacks);
  }

  lemma PrefixOfConcat(a: string, b: string, c: string)
    ensures a <= a + b + c
  {
    assert (a + b + c)[..|a|] == a;
  }

  /** The three tiers select three different video expressions. */
  lemma TiersDiffer(q1: string, q2: string, fileType: string)
    requires q1 in QualityMap && q2 in QualityMap && q1 != q2 && fileType != Mp3
    ensures FormatOptions(q1, fileType) != FormatOptions(q2, fileType)
  {
    var r1, r2 := FormatOptions(q1, fileType), FormatOptions(q2, fileType);
    assert r1[13] == QualityMap[q1][13];
    assert r2[13] == QualityMap[q2][13];
    assert QualityMap[Low][13] == '3' && QualityMap[Medium][13] == '7' && QualityMap[High][13] == '1';
  }
}
