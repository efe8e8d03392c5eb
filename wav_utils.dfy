/** The record of wavheader/src/utils.rs. `WAVHeader::new` stores each of
    its thirteen arguments, in declaration order, in the field of the
    same name, so the datatype's constructor is `new`. The four 16-bit
    fields are `bv16`, the other nine `bv32`. */
module WavUtils {

  datatype WavHeader = WavHeader(
    chunkId: bv32,
    chunkSize: bv32,
    format: bv32,
    subChunk1Id: bv32,
    subChunk1Size: bv32,
    audioFormat: bv16,
    numChannels: bv16,
    sampleRate: bv32,
    byteRate: bv32,
    blockAlign: bv16,
    bitsPerSample: bv16,
    subChunk2Id: bv32,
    subChunk2Size: bv32)
}
