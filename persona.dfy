/**
 * The `petConfig` table of VoiceChat.js and the lookup
 * `petConfig[selectedPet] || petConfig.fox` that picks the current persona.
 */
module Persona {

  datatype Profile = Profile(id: string, name: string, avatar: string, color: string, greeting: string)

  const FOX := Profile("fox", "小狐狸", "🦊", "#FF6B6B",
    "你好呀！我是小狐狸，很高兴认识你！有什么想聊的吗？")
  const DOLPHIN := Profile("dolphin", "小海豚", "🐬", "#4ECDC4",
    "嗨！我是小海豚，我最喜欢和朋友们一起学习新知识啦！")
  const OWL := Profile("owl", "小猫头鹰", "🦉", "#45B7D1",
    "你好！我是小猫头鹰，我知道很多有趣的知识，想听听吗？")

  /** The table, keyed by persona id. */
  const PET_CONFIG: map<string, Profile> := map["fox" := FOX, "dolphin" := DOLPHIN, "owl" := OWL]

  /**
   * The persona shown for `selectedPet`: a known id gets its own profile,
   * anything else silently falls back to the fox.
   */
  function Lookup(selectedPet: string): (p: Profile)
    ensures p.id == selectedPet <==> selectedPet in {"fox", "dolphin", "owl"}
    ensures p.id != selectedPet ==> p == FOX
    ensures p in PET_CONFIG.Values
  {
    if selectedPet in PET_CONFIG then PET_CONFIG[selectedPet] else PET_CONFIG["fox"]
  }

  /** Every entry of the table is filed under its own id. */
  lemma ConfigKeyedById(k: string)
    requires k in PET_CONFIG
    ensures PET_CONFIG[k].id == k
  {
  }

  /** Looking up the id of a looked-up persona gives the same persona again. */
  lemma LookupCanonical(selectedPet: string)
    ensures Lookup(Lookup(selectedPet).id) == Lookup(selectedPet)
  {
  }
}
